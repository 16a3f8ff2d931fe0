/** Runs that show why the hypotheses of the fan-out results are needed, and exactly when
    two broadcasts to one job can reach a subscriber in the wrong order. */
module FanoutWitness {
  import opened Values
  import opened Fanout
  import opened FanoutSafety
  import opened FanoutDelivery
  import opened FanoutLeaving
  import opened FanoutCourse
  import opened FanoutOrder

  // ---------------------------------------------------------------- witness runs

  const A: nat := 0
  const B: nat := 1
  const C: nat := 2

  function Open(offered: seq<Packet>): Chan {
    Chan(1, offered, false, 0, 0, offered, offered, [])
  }

  lemma OfferOpen(ps: seq<Packet>, p: Packet)
    requires |ps| < QUEUE_LIMIT
    ensures Offer(Open(ps), p) == Open(ps + [p])
  {}

  function Closed(offered: seq<Packet>): Chan {
    Open(offered).(closed := true, until := 1)
  }

  /** Job 1 with one subscriber and no spare capacity. */
  const ONE: State := State([Open([])], [Backing(1, [A])], map[1 := Slice(0, 1)], [], NoFault)

  lemma OneIsReached()
    ensures Exec([Subscribe(1, 0)]) == ONE
  {
    ExecSnoc([], Subscribe(1, 0));
    assert [] + [Subscribe(1, 0)] == [Subscribe(1, 0)];
    assert Step(INIT, Subscribe(1, 0)).arrays[0].cells == [A];
  }

  function OneCast(text: string, next: nat, held: Option<nat>, alone: bool, disturbed: bool): Cast {
    Cast(1, text, Slice(0, 1), next, held, [A], alone, disturbed)
  }

  lemma OneIssues(text: string)
    ensures Step(ONE, Snapshot(1, text)) == ONE.(casts := [OneCast(text, 0, None, true, false)])
  {
    assert Items(ONE, Slice(0, 1)) == [A];
  }

  /** The state after the only subscriber left during broadcast "m". */
  function LastLeft(held: Option<nat>): State {
    State([Closed([])], ONE.arrays, map[1 := Slice(0, 0)], [OneCast("m", 0, held, true, true)], NoFault)
  }

  lemma OnlyOneLeaves()
    ensures Step(ONE.(casts := [OneCast("m", 0, None, true, false)]), Unsubscribe(A)) == LastLeft(None)
  {
    var s := ONE.(casts := [OneCast("m", 0, None, true, false)]);
    assert Items(s, Slice(0, 1)) == [A];
    assert Position(s, A) == 0 && Found(s, A);
    hide Position, Items, Found, IndexOf;
    assert ShiftLeft([A], 0, 1) == [A];
    assert Disturb(s.casts, 1) == [OneCast("m", 0, None, true, true)];
    assert s.arrays[0 := s.arrays[0].(cells := [A])] == s.arrays;
  }

  /** The only subscriber leaves between the snapshot and the send: the send panics. */
  lemma LeavingLastPanics()
    ensures Exec([Subscribe(1, 0)] + [Snapshot(1, "m")] + [Unsubscribe(A)] + [Load(0)] + [Send(0)]).fault
      == SendOnClosed(0, A)
  {
    assert Step(LastLeft(None), Load(0)) == LastLeft(Some(A));
    assert Step(LastLeft(Some(A)), Send(0)).fault == SendOnClosed(0, A);
    hide Step, Exec;
    OneIsReached();
    OneIssues("m");
    OnlyOneLeaves();
    ExecSnoc([Subscribe(1, 0)], Snapshot(1, "m"));
    ExecSnoc([Subscribe(1, 0)] + [Snapshot(1, "m")], Unsubscribe(A));
    ExecSnoc([Subscribe(1, 0)] + [Snapshot(1, "m")] + [Unsubscribe(A)], Load(0));
    ExecSnoc([Subscribe(1, 0)] + [Snapshot(1, "m")] + [Unsubscribe(A)] + [Load(0)], Send(0));
  }

  // A subscriber that the broadcast has loaded leaves: a panic although it is not the last.

  const TWO_JOINED: seq<Event> := [Subscribe(1, 1)] + [Snapshot(1, "m")] + [Subscribe(1, 0)]

  /** One or two subscribers in an array of two cells, and broadcast "m" to the first. */
  function Loaded(two: bool, held: Option<nat>): State {
    State(if two then [Open([]), Open([]).(since := 1)] else [Open([])],
          [Backing(1, [A, if two then B else A])], map[1 := Slice(0, if two then 2 else 1)],
          [OneCast("m", 0, held, true, false)], NoFault)
  }

  lemma FirstOfTwo()
    ensures WellFormed(Step(INIT, Subscribe(1, 1)))
      && Step(Step(INIT, Subscribe(1, 1)), Snapshot(1, "m")) == Loaded(false, None)
  {
    var s := Step(INIT, Subscribe(1, 1));
    assert s.arrays[0].cells == [A, A] && s.chans == [Open([])];
    assert Items(s, Slice(0, 1)) == [A];
    assert s.arrays == Loaded(false, None).arrays;
  }

  lemma SecondOfTwo()
    ensures WellFormed(Loaded(false, None)) && Step(Loaded(false, None), Subscribe(1, 0)) == Loaded(true, None)
  {
    var s := Loaded(false, None);
    assert s.arrays[0].cells[1 := B] == [A, B];
  }

  lemma FirstIsLoaded()
    ensures WellFormed(Loaded(true, None)) && Step(Loaded(true, None), Load(0)) == Loaded(true, Some(A))
  {}

  lemma LoadedLeaves()
    ensures WellFormed(Loaded(true, Some(A)))
    ensures var r := Step(Loaded(true, Some(A)), Unsubscribe(A));
      r.fault == NoFault && |r.casts| == 1 && r.casts[0].held == Some(A) && r.casts[0].next == 0
      && |r.chans| == 2 && r.chans[A].closed && Step(r, Send(0)).fault == SendOnClosed(0, A)
  {
    var s := Loaded(true, Some(A));
    assert Items(s, Slice(0, 2)) == [A, B];
    assert Position(s, A) == 0;
  }

  lemma TwoAreJoined()
    ensures Exec(TWO_JOINED) == Loaded(true, None)
  {
    assert Exec([]) == INIT && [] + [Subscribe(1, 1)] == [Subscribe(1, 1)];
    FirstOfTwo();
    SecondOfTwo();
    hide Step, Exec, Loaded;
    ExecSnoc([], Subscribe(1, 1));
    ExecSnoc([Subscribe(1, 1)], Snapshot(1, "m"));
    ExecSnoc([Subscribe(1, 1)] + [Snapshot(1, "m")], Subscribe(1, 0));
  }

  /** The broadcast holds its target when that subscriber leaves: the send panics, although
      the leaver is not the last of the list. */
  lemma LoadedLeaverPanics()
    ensures Exec(TWO_JOINED + [Load(0)] + [Unsubscribe(A)] + [Send(0)]).fault == SendOnClosed(0, A)
  {
    TwoAreJoined();
    FirstIsLoaded();
    LoadedLeaves();
    hide *;
    ExecSnoc(TWO_JOINED, Load(0));
    ExecSnoc(TWO_JOINED + [Load(0)], Unsubscribe(A));
    ExecSnoc(TWO_JOINED + [Load(0)] + [Unsubscribe(A)], Send(0));
  }

  // Two broadcasts that overlap.

  /** The state with broadcasts "x" and "y" to one subscriber. */
  function TwoCasts(offered: seq<Packet>, x: nat, hx: Option<nat>, y: nat, hy: Option<nat>): State {
    ONE.(chans := [Open(offered)], casts := [OneCast("x", x, hx, true, false), OneCast("y", y, hy, false, false)])
  }

  lemma SecondIssues()
    ensures Step(ONE.(casts := [OneCast("x", 0, None, true, false)]), Snapshot(1, "y"))
      == TwoCasts([], 0, None, 0, None)
  {
    var s := ONE.(casts := [OneCast("x", 0, None, true, false)]);
    assert Items(s, Slice(0, 1)) == [A];
    assert Unfinished(s.casts[0]) && s.casts[0].job == 1;
  }

  /** Broadcast "y" loads and sends. */
  lemma SecondIsSent()
    ensures Step(TwoCasts([], 0, None, 0, None), Load(1)) == TwoCasts([], 0, None, 0, Some(A))
    ensures Step(TwoCasts([], 0, None, 0, Some(A)), Send(1)) == TwoCasts([Packet(1, "y")], 0, None, 1, None)
  {
    OfferOpen([], Packet(1, "y"));
    assert [] + [Packet(1, "y")] == [Packet(1, "y")];
    var r := Step(TwoCasts([], 0, None, 0, Some(A)), Send(1));
    assert r.chans == [Open([Packet(1, "y")])];
    assert r.casts == TwoCasts([Packet(1, "y")], 0, None, 1, None).casts;
  }

  /** Broadcast "x" loads and sends. */
  lemma FirstIsSent()
    ensures Step(TwoCasts([Packet(1, "y")], 0, None, 1, None), Load(0))
      == TwoCasts([Packet(1, "y")], 0, Some(A), 1, None)
    ensures Step(TwoCasts([Packet(1, "y")], 0, Some(A), 1, None), Send(0)) ==
      TwoCasts([Packet(1, "y"), Packet(0, "x")], 1, None, 1, None)
  {
    OfferOpen([Packet(1, "y")], Packet(0, "x"));
    assert [Packet(1, "y")] + [Packet(0, "x")] == [Packet(1, "y"), Packet(0, "x")];
    var r := Step(TwoCasts([Packet(1, "y")], 0, Some(A), 1, None), Send(0));
    assert r.chans == [Open([Packet(1, "y"), Packet(0, "x")])];
    assert r.casts == TwoCasts([Packet(1, "y"), Packet(0, "x")], 1, None, 1, None).casts;
  }

  const TWO_SNAPSHOTS: seq<Event> := [Subscribe(1, 0)] + [Snapshot(1, "x")] + [Snapshot(1, "y")]

  /** Two overlapping broadcasts reach a subscriber in the wrong order although nobody left. */
  lemma OverlapReorders()
    ensures var s := Exec(TWO_SNAPSHOTS + [Load(1)] + [Send(1)] + [Load(0)] + [Send(0)]);
      && s.fault == NoFault && Undisturbed(s, 1) && Quiescent(s, 1)
      && |s.chans| == 1 && s.chans[A].queue == [Packet(1, "y"), Packet(0, "x")]
  {
    hide Step, Exec;
    OneIsReached();
    OneIssues("x");
    SecondIssues();
    SecondIsSent();
    FirstIsSent();
    ExecSnoc([Subscribe(1, 0)], Snapshot(1, "x"));
    ExecSnoc([Subscribe(1, 0)] + [Snapshot(1, "x")], Snapshot(1, "y"));
    ExecSnoc(TWO_SNAPSHOTS, Load(1));
    ExecSnoc(TWO_SNAPSHOTS + [Load(1)], Send(1));
    ExecSnoc(TWO_SNAPSHOTS + [Load(1)] + [Send(1)], Load(0));
    ExecSnoc(TWO_SNAPSHOTS + [Load(1)] + [Send(1)] + [Load(0)], Send(0));
  }

  // A subscriber that was served leaves: one is skipped and one served twice.

  /** Job 1 with three subscribers in an array with one spare cell, and a broadcast that has
      served the first. */
  const THREE: State := State(
    [Open([Packet(0, "m")]), Open([]), Open([])], [Backing(1, [A, B, C, A])], map[1 := Slice(0, 3)],
    [Cast(1, "m", Slice(0, 3), 1, None, [A, B, C], true, false)], NoFault)

  const THREE_JOINED: seq<Event> := [Subscribe(1, 3)] + [Subscribe(1, 0)] + [Subscribe(1, 0)]

  const FIRST_SERVED: seq<Event> := THREE_JOINED + [Snapshot(1, "m")] + [Load(0)] + [Send(0)]

  /** The states on the way to `THREE`: `k` subscribers and no broadcast. */
  function Joined(k: nat): State
    requires 1 <= k <= 3
  {
    State(seq(k, _ => Open([])), [Backing(1, [A, B, C][..k] + seq(4 - k, _ => A))], map[1 := Slice(0, k)], [], NoFault)
  }

  /** Three subscribers and the broadcast before its first send. */
  function Issued(held: Option<nat>): State {
    Joined(3).(casts := [Cast(1, "m", Slice(0, 3), 0, held, [A, B, C], true, false)])
  }

  lemma FirstJoins()
    ensures Step(INIT, Subscribe(1, 3)) == Joined(1)
  {
    assert Step(INIT, Subscribe(1, 3)).arrays[0].cells == Joined(1).arrays[0].cells;
    assert Step(INIT, Subscribe(1, 3)).chans == Joined(1).chans;
  }

  lemma NextJoins(k: nat)
    requires 1 <= k < 3
    ensures WellFormed(Joined(k)) && Step(Joined(k), Subscribe(1, 0)) == Joined(k + 1)
  {
    assert Step(Joined(k), Subscribe(1, 0)).chans == Joined(k + 1).chans;
    assert Step(Joined(k), Subscribe(1, 0)).arrays[0].cells == Joined(k + 1).arrays[0].cells;
  }

  lemma FirstSnapshot()
    ensures WellFormed(Joined(3)) && Step(Joined(3), Snapshot(1, "m")) == Issued(None)
  {
    var s := Joined(3);
    assert s.arrays[0].cells == [A, B, C, A];
    assert Items(s, Slice(0, 3)) == [A, B, C];
  }

  lemma FirstSend()
    ensures WellFormed(Issued(None)) && Step(Issued(None), Load(0)) == Issued(Some(A))
    ensures Step(Issued(Some(A)), Send(0)) == THREE
  {
    assert Issued(None).arrays[0].cells == [A, B, C, A];
    OfferOpen([], Packet(0, "m"));
    assert [] + [Packet(0, "m")] == [Packet(0, "m")];
    var r := Step(Issued(Some(A)), Send(0));
    assert r.chans == THREE.chans && r.casts == THREE.casts;
  }

  lemma ThreeAreJoined()
    ensures Exec(THREE_JOINED) == Joined(3)
  {
    assert Exec([]) == INIT && [] + [Subscribe(1, 3)] == [Subscribe(1, 3)];
    FirstJoins();
    NextJoins(1);
    NextJoins(2);
    hide Step, Exec, Joined;
    ExecSnoc([], Subscribe(1, 3));
    ExecSnoc([Subscribe(1, 3)], Subscribe(1, 0));
    ExecSnoc([Subscribe(1, 3)] + [Subscribe(1, 0)], Subscribe(1, 0));
  }

  lemma ThreeIsReached()
    ensures Exec(FIRST_SERVED) == THREE
  {
    ThreeAreJoined();
    FirstSnapshot();
    FirstSend();
    hide Step, Exec, Joined, Issued, THREE, THREE_JOINED;
    ExecSnoc(THREE_JOINED, Snapshot(1, "m"));
    ExecSnoc(THREE_JOINED + [Snapshot(1, "m")], Load(0));
    ExecSnoc(THREE_JOINED + [Snapshot(1, "m")] + [Load(0)], Send(0));
  }

  /** After the first subscriber left, and after each of the two sends that remain. */
  function After(next: nat, held: Option<nat>, c: seq<Packet>): State {
    State([Closed([Packet(0, "m")]), Open([]), Open(c)], [Backing(1, [B, C, C, A])], map[1 := Slice(0, 2)],
          [Cast(1, "m", Slice(0, 3), next, held, [A, B, C], true, true)], NoFault)
  }

  lemma ThreeUnsubscribe()
    ensures WellFormed(THREE) && Step(THREE, Unsubscribe(A)) == After(1, None, [])
  {
    assert Items(THREE, Slice(0, 3)) == [A, B, C];
    assert Position(THREE, A) == 0;
    var r := Step(THREE, Unsubscribe(A));
    assert r.arrays[0].cells == [B, C, C, A];
    assert r.casts == After(1, None, []).casts && r.chans == After(1, None, []).chans;
  }

  /** Both remaining elements of the array are `C` now. */
  lemma NextLoad(next: nat, c: seq<Packet>)
    requires 1 <= next <= 2
    ensures WellFormed(After(next, None, c)) && Step(After(next, None, c), Load(0)) == After(next, Some(C), c)
  {}

  lemma NextSend(next: nat, c: seq<Packet>)
    requires 1 <= next <= 2 && |c| <= 1
    ensures WellFormed(After(next, Some(C), c))
    ensures Step(After(next, Some(C), c), Send(0)) == After(next + 1, None, c + [Packet(0, "m")])
  {
    var p := Packet(0, "m");
    OfferOpen(c, p);
    var r := Step(After(next, Some(C), c), Send(0));
    assert r.chans == After(next + 1, None, c + [p]).chans;
    assert r.casts == After(next + 1, None, c + [p]).casts;
  }

  lemma FourMoves(es: seq<Event>)
    requires Exec(es) == After(1, None, [])
    ensures Exec(es + [Load(0)] + [Send(0)] + [Load(0)] + [Send(0)]) == After(3, None, [Packet(0, "m"), Packet(0, "m")])
  {
    var p := Packet(0, "m");
    assert [] + [p] == [p] && [p] + [p] == [p, p];
    hide *;
    NextLoad(1, []);
    NextSend(1, []);
    NextLoad(2, [p]);
    NextSend(2, [p]);
    ExecSnoc(es, Load(0));
    ExecSnoc(es + [Load(0)], Send(0));
    ExecSnoc(es + [Load(0)] + [Send(0)], Load(0));
    ExecSnoc(es + [Load(0)] + [Send(0)] + [Load(0)], Send(0));
  }

  /** The first of three subscribers leaves after its own send: the second is skipped for
      good and the third is offered the message twice. */
  lemma LeavingFirstSkipsAndRepeats()
    ensures var s := Exec(FIRST_SERVED + [Unsubscribe(A)] + [Load(0)] + [Send(0)] + [Load(0)] + [Send(0)]);
      && s.fault == NoFault && |s.casts| == 1 && !Unfinished(s.casts[0]) && |s.chans| == 3
      && s.chans[B].offered == [] && !s.chans[B].closed
      && s.chans[C].offered == [Packet(0, "m"), Packet(0, "m")]
  {
    hide Step, Exec, FIRST_SERVED;
    ThreeIsReached();
    ThreeUnsubscribe();
    ExecSnoc(FIRST_SERVED, Unsubscribe(A));
    FourMoves(FIRST_SERVED + [Unsubscribe(A)]);
  }

  // The first of two subscribers leaves after its own send, while only the second is ahead: the
  // shift leaves the window intact, but a third subscriber joins and is written over the second.

  const TWO_LISTED: seq<Event> := [Subscribe(1, 1)] + [Subscribe(1, 0)] + [Snapshot(1, "m")]

  /** One or two subscribers in an array of two cells. */
  function Pair(two: bool): State {
    State(if two then [Open([]), Open([])] else [Open([])], [Backing(1, [A, if two then B else A])],
          map[1 := Slice(0, if two then 2 else 1)], [], NoFault)
  }

  /** A broadcast to both, which has come to `next` of its snapshot. */
  function PairCast(next: nat, held: Option<nat>, disturbed: bool): Cast {
    Cast(1, "m", Slice(0, 2), next, held, [A, B], true, disturbed)
  }

  /** It has offered `a` to the first. */
  function PairSent(next: nat, held: Option<nat>, a: seq<Packet>): State {
    Pair(true).(chans := [Open(a), Open([])], casts := [PairCast(next, held, false)])
  }

  /** The first has left. */
  const PAIR_LEFT: State := State(
    [Closed([Packet(0, "m")]), Open([])], [Backing(1, [B, B])], map[1 := Slice(0, 1)],
    [PairCast(1, None, true)], NoFault)

  /** A third has joined and been offered `c`. */
  function Replaced(next: nat, held: Option<nat>, c: seq<Packet>): State {
    State([Closed([Packet(0, "m")]), Open([]), Open(c).(since := 1)], [Backing(1, [B, C])], map[1 := Slice(0, 2)],
          [PairCast(next, held, true)], NoFault)
  }

  lemma PairJoins()
    ensures Step(INIT, Subscribe(1, 1)) == Pair(false)
    ensures WellFormed(Pair(false)) && Step(Pair(false), Subscribe(1, 0)) == Pair(true)
  {
    assert Step(INIT, Subscribe(1, 1)).arrays[0].cells == [A, A];
    assert Pair(false).arrays[0].cells[1 := B] == [A, B];
  }

  lemma PairIssues()
    ensures WellFormed(Pair(true)) && Step(Pair(true), Snapshot(1, "m")) == PairSent(0, None, [])
  {
    assert Items(Pair(true), Slice(0, 2)) == [A, B];
  }

  lemma PairLoads()
    ensures WellFormed(PairSent(0, None, [])) && Step(PairSent(0, None, []), Load(0)) == PairSent(0, Some(A), [])
  {
    hide Step;
    LoadIs(PairSent(0, None, []), 0);
  }

  lemma PairSends()
    ensures WellFormed(PairSent(0, Some(A), []))
    ensures Step(PairSent(0, Some(A), []), Send(0)) == PairSent(1, None, [Packet(0, "m")])
  {
    var s, p := PairSent(0, Some(A), []), Packet(0, "m");
    OfferOpen([], p);
    assert [] + [p] == [p] && PacketOf(s, 0) == p;
    assert s.chans[A := Open([p])] == [Open([p]), Open([])];
    assert s.casts[0 := PairCast(1, None, false)] == [PairCast(1, None, false)];
    hide Step, Offer, Open;
    SendIs(s, 0);
  }

  lemma FirstOfPairLeaves()
    ensures WellFormed(PairSent(1, None, [Packet(0, "m")]))
    ensures Position(PairSent(1, None, [Packet(0, "m")]), A) == 0
    ensures Step(PairSent(1, None, [Packet(0, "m")]), Unsubscribe(A)) == PAIR_LEFT
  {
    var s := PairSent(1, None, [Packet(0, "m")]);
    assert Items(s, Slice(0, 2)) == [A, B];
    assert Position(s, A) == 0;
    var r := Step(s, Unsubscribe(A));
    assert r.arrays[0].cells == [B, B];
    assert r.casts == PAIR_LEFT.casts && r.chans == PAIR_LEFT.chans;
  }

  lemma ThirdJoins()
    ensures WellFormed(PAIR_LEFT) && Step(PAIR_LEFT, Subscribe(1, 0)) == Replaced(1, None, [])
  {
    assert PAIR_LEFT.arrays[0].cells[1 := C] == [B, C];
    var r := Step(PAIR_LEFT, Subscribe(1, 0));
    assert r.chans == Replaced(1, None, []).chans && r.arrays == Replaced(1, None, []).arrays;
  }

  lemma ThirdIsLoaded()
    ensures WellFormed(Replaced(1, None, [])) && Step(Replaced(1, None, []), Load(0)) == Replaced(1, Some(C), [])
  {
    assert Replaced(1, None, []).arrays[0].cells == [B, C];
    hide Step;
    LoadIs(Replaced(1, None, []), 0);
  }

  lemma ThirdIsSent()
    ensures WellFormed(Replaced(1, Some(C), []))
    ensures Step(Replaced(1, Some(C), []), Send(0)) == Replaced(2, None, [Packet(0, "m")])
  {
    var s, p := Replaced(1, Some(C), []), Packet(0, "m");
    OfferOpen([], p);
    assert [] + [p] == [p] && PacketOf(s, 0) == p;
    assert Offer(s.chans[C], p) == Open([p]).(since := 1);
    assert s.chans[C := Open([p]).(since := 1)] == Replaced(2, None, [p]).chans;
    assert s.casts[0 := PairCast(2, None, true)] == [PairCast(2, None, true)];
    hide Step, Offer, Open;
    SendIs(s, 0);
  }

  const FIRST_OF_PAIR_LEFT: seq<Event> := TWO_LISTED + [Load(0)] + [Send(0)] + [Unsubscribe(A)]

  lemma PairIsServed()
    ensures Exec(TWO_LISTED + [Load(0)] + [Send(0)]) == PairSent(1, None, [Packet(0, "m")])
  {
    assert Exec([]) == INIT && [] + [Subscribe(1, 1)] == [Subscribe(1, 1)];
    PairJoins();
    PairIssues();
    PairLoads();
    PairSends();
    hide Step, Exec, Pair, PairSent;
    ExecSnoc([], Subscribe(1, 1));
    ExecSnoc([Subscribe(1, 1)], Subscribe(1, 0));
    ExecSnoc([Subscribe(1, 1)] + [Subscribe(1, 0)], Snapshot(1, "m"));
    ExecSnoc(TWO_LISTED, Load(0));
    ExecSnoc(TWO_LISTED + [Load(0)], Send(0));
  }

  /** When the first leaves, the shift spares the window; the join after it makes the loop send
      to the newcomer instead of the second, who stays open and is never offered the message. */
  lemma LaterJoinSkips()
    ensures var s := Exec(TWO_LISTED + [Load(0)] + [Send(0)]);
      && A < |s.chans| && |s.casts| == 1
      && Spared(Position(s, A), First(s.casts[0]), s.casts[0].view.len, Lookup(s, 1).len) && !Harmless(s, 0, A)
    ensures var t := Exec(FIRST_OF_PAIR_LEFT + [Subscribe(1, 0)] + [Load(0)] + [Send(0)]);
      && t.fault == NoFault && |t.casts| == 1 && !Unfinished(t.casts[0]) && |t.chans| == 3
      && t.casts[0].snap == [A, B] && t.chans[B].offered == [] && !t.chans[B].closed
      && t.chans[C].offered == [Packet(0, "m")] && t.chans[C].since == 1
  {
    PairIsServed();
    FirstOfPairLeaves();
    ThirdJoins();
    ThirdIsLoaded();
    ThirdIsSent();
    hide Step, Exec, Items, IndexOf, Position;
    ExecSnoc(TWO_LISTED + [Load(0)] + [Send(0)], Unsubscribe(A));
    ExecSnoc(FIRST_OF_PAIR_LEFT, Subscribe(1, 0));
    ExecSnoc(FIRST_OF_PAIR_LEFT + [Subscribe(1, 0)], Load(0));
    ExecSnoc(FIRST_OF_PAIR_LEFT + [Subscribe(1, 0)] + [Load(0)], Send(0));
  }

  // ---------------------------------------------------------------- overtaking, exactly

  /** The loops of the broadcasts under way take their steps and nothing else happens. */
  ghost predicate LoopsOnly(es: seq<Event>) {
    forall i :: 0 <= i < |es| ==> es[i].Load? || es[i].Send?
  }

  /** An earlier broadcast to the job still has to reach `c`. */
  ghost predicate Owed(s: State, job: int, c: nat)
    requires WellFormed(s)
  {
    exists b :: 0 <= b < |s.casts| && s.casts[b].job == job && c in Rest(s, b)
  }

  /** In every run: a broadcast issued now can reach the open subscriber `c` before an earlier
      one exactly when an earlier one still has to reach it. */
  lemma OvertakingIff(es: seq<Event>, text: string, c: nat)
    requires c < |Exec(es).chans|
    requires var s := Exec(es);
      s.fault == NoFault && !s.chans[c].closed && Undisturbed(s, s.chans[c].job) && InOrder(s.chans[c].offered)
    ensures var issued := es + [Snapshot(Exec(es).chans[c].job, text)];
      (exists more :: LoopsOnly(more) && c < |Exec(issued + more).chans|
        && !InOrder(Exec(issued + more).chans[c].offered))
      <==> Owed(Exec(es), Exec(es).chans[c].job, c)
  {
    var s := Exec(es);
    var job := s.chans[c].job;
    var issued, t := es + [Snapshot(job, text)], DoSnapshot(s, job, text);
    ExecLedger(es);
    ExecSnoc(es, Snapshot(job, text));
    assert Exec(issued) == t;
    hide Exec, Step, DoSnapshot, Ledger, Undisturbed, InOrder, Owed, LoopsOnly;
    forall more: seq<Event> ensures Exec(issued + more) == ExecFrom(t, more) { ExecSplit(issued, more); }
    OvertakingFrom(s, text, c);
    if more :| LoopsOnly(more) && c < |ExecFrom(t, more).chans| && !InOrder(ExecFrom(t, more).chans[c].offered) {
      assert !InOrder(Exec(issued + more).chans[c].offered);
    }
  }

  /** The same from any state of the ledger. */
  lemma OvertakingFrom(s: State, text: string, c: nat)
    requires Ledger(s) && s.fault == NoFault && c < |s.chans| && !s.chans[c].closed
    requires Undisturbed(s, s.chans[c].job) && InOrder(s.chans[c].offered)
    ensures var t := DoSnapshot(s, s.chans[c].job, text);
      (exists es :: LoopsOnly(es) && c < |ExecFrom(t, es).chans| && !InOrder(ExecFrom(t, es).chans[c].offered))
      <==> Owed(s, s.chans[c].job, c)
  {
    var job := s.chans[c].job;
    var t := DoSnapshot(s, job, text);
    assert WellFormed(s) && t.fault == NoFault;
    AfterSnapshot(s, text, c);
    forall b | 0 <= b < |s.casts| ensures Rest(t, b) == Rest(s, b) { RestBeforeSnapshot(s, job, text, b); }
    hide Ledger, Undisturbed, InOrder, DoSnapshot, Rest, WellFormed, LoopsOnly, ExecFrom;
    if Owed(s, job, c) {
      var b :| 0 <= b < |s.casts| && s.casts[b].job == job && c in Rest(s, b);
      assert !t.casts[b].disturbed && !t.casts[|s.casts|].disturbed by { NotDisturbed(t, job); }
      var es := Overtake(t, b, |s.casts|, c);
    } else {
      assert NothingOwed(t, |s.casts|, c);
      forall es | LoopsOnly(es) && c < |ExecFrom(t, es).chans| ensures InOrder(ExecFrom(t, es).chans[c].offered) {
        StaysInOrder(t, |s.casts|, c, es);
      }
    }
  }

  lemma NotDisturbed(s: State, job: int)
    requires Undisturbed(s, job)
    ensures forall b :: 0 <= b < |s.casts| && s.casts[b].job == job ==> !s.casts[b].disturbed
  {}

  lemma RestBeforeSnapshot(s: State, job: int, text: string, b: nat)
    requires WellFormed(s) && b < |s.casts|
    ensures b < |DoSnapshot(s, job, text).casts| && Rest(DoSnapshot(s, job, text), b) == Rest(s, b)
  {
    var t := DoSnapshot(s, job, text);
    assert Items(t, t.casts[b].view) == Items(s, s.casts[b].view);
  }

  lemma AfterSnapshot(s: State, text: string, c: nat)
    requires Ledger(s) && s.fault == NoFault && c < |s.chans| && !s.chans[c].closed
    requires Undisturbed(s, s.chans[c].job)
    ensures var t, b := DoSnapshot(s, s.chans[c].job, text), |s.casts|;
      && Ledger(t) && t.chans == s.chans && |t.casts| == b + 1 && t.casts[..b] == s.casts
      && Undisturbed(t, s.chans[c].job) && t.casts[b].job == s.chans[c].job && c in Rest(t, b)
      && forall p :: p in t.chans[c].offered ==> p.id < b
  {
    var job := s.chans[c].job;
    var t, b := DoSnapshot(s, job, text), |s.casts|;
    assert t == Step(s, Snapshot(job, text)) && Inv(s);
    assert |t.casts| == b + 1 && t.casts[..b] == s.casts && t.chans == s.chans && t.casts[b].job == job
      && !t.casts[b].disturbed;
    OfferedIssued(s, c);
    hide *;
    RestOfNew(s, text, c);
    UndisturbedMore(s, t, job);
    StepKeepsLedger(s, Snapshot(job, text));
  }

  lemma OfferedIssued(s: State, c: nat)
    requires Ledger(s) && c < |s.chans|
    ensures forall p :: p in s.chans[c].offered ==> p.id < |s.casts|
  {
    assert Books(s, c);
  }

  lemma UndisturbedMore(s: State, t: State, job: int)
    requires Undisturbed(s, job) && |t.casts| == |s.casts| + 1 && t.casts[..|s.casts|] == s.casts
      && !t.casts[|s.casts|].disturbed
    ensures Undisturbed(t, job)
  {}

  lemma RestOfNew(s: State, text: string, c: nat)
    requires Inv(s) && s.fault == NoFault && c < |s.chans| && !s.chans[c].closed
    ensures c in Rest(DoSnapshot(s, s.chans[c].job, text), |s.casts|)
  {
    var job := s.chans[c].job;
    var t, b := DoSnapshot(s, job, text), |s.casts|;
    assert Enrolled(s, c);
    hide Inv;
    assert Rest(t, b) == Items(s, Lookup(s, job));
  }

  /** No broadcast before `b0` to the job of `c` still has to reach `c`. */
  ghost predicate NothingOwed(t: State, b0: nat, c: nat) {
    && Ledger(t) && c < |t.chans| && |t.casts| == b0 + 1 && t.casts[b0].job == t.chans[c].job
    && Undisturbed(t, t.chans[c].job) && InOrder(t.chans[c].offered)
    && (forall p :: p in t.chans[c].offered ==> p.id <= b0)
    && (forall b :: 0 <= b < b0 && t.casts[b].job == t.chans[c].job ==> c !in Rest(t, b))
  }

  lemma {:induction false} StaysInOrder(t: State, b0: nat, c: nat, es: seq<Event>)
    requires NothingOwed(t, b0, c) && LoopsOnly(es)
    ensures c < |ExecFrom(t, es).chans| && InOrder(ExecFrom(t, es).chans[c].offered)
    decreases |es|
  {
    if es != [] {
      hide Step, NothingOwed, InOrder;
      LoopKeepsNothingOwed(t, b0, c, es[0]);
      NothingOwedIs(Step(t, es[0]), b0, c);
      StaysInOrder(Step(t, es[0]), b0, c, es[1..]);
    } else {
      NothingOwedIs(t, b0, c);
    }
  }

  lemma NothingOwedIs(t: State, b0: nat, c: nat)
    requires NothingOwed(t, b0, c)
    ensures WellFormed(t) && c < |t.chans| && InOrder(t.chans[c].offered)
  {}

  lemma LoopKeepsNothingOwed(t: State, b0: nat, c: nat, e: Event)
    requires NothingOwed(t, b0, c) && (e.Load? || e.Send?)
    ensures NothingOwed(Step(t, e), b0, c)
  {
    var r := Step(t, e);
    assert WellFormed(t);
    hide Step, InOrder, Rest, Ledger;
    StepKeepsLedger(t, e);
    StepOnChan(t, e, c);
    OnlyLatestDelivers(t, b0, c, e);
    LoopEffect(t, e);
    forall x | 0 <= x < b0 && r.casts[x].job == r.chans[c].job ensures c !in Rest(r, x) { RestShrinks(t, e, x); }
  }

  lemma OnlyLatestDelivers(t: State, b0: nat, c: nat, e: Event)
    requires NothingOwed(t, b0, c) && (e.Load? || e.Send?)
    ensures c < |Step(t, e).chans|
    ensures var ps := Step(t, e).chans[c].offered; InOrder(ps) && forall p :: p in ps ==> p.id <= b0
  {
    assert WellFormed(t);
    hide Step;
    StepOnQueue(t, e, c);
    if Delivers(t, e, c) {
      DeliversLatest(t, b0, c, e.cast);
      NotYetOffered(t, b0, c);
      OfferedBelow(t, b0, c);
      hide *;
      OrderedSnoc(t.chans[c].offered, Step(t, e).chans[c].offered, PacketOf(t, b0));
    }
  }

  /** A delivery to `c` can only be on behalf of the last broadcast. */
  lemma DeliversLatest(t: State, b0: nat, c: nat, b: nat)
    requires NothingOwed(t, b0, c) && Delivers(t, Send(b), c)
    ensures b == b0 && c in Rest(t, b0)
    ensures Offer(t.chans[c], PacketOf(t, b)).offered == t.chans[c].offered + [PacketOf(t, b0)]
      && PacketOf(t, b0).id == b0
  {
    TargetJob(t, b);
    RestMoves(t, b);
  }

  lemma OfferedBelow(t: State, b0: nat, c: nat)
    requires NothingOwed(t, b0, c) && PacketOf(t, b0) !in t.chans[c].offered
    ensures forall p :: p in t.chans[c].offered ==> p.id < b0
  {
    assert Books(t, c);
    forall p | p in t.chans[c].offered ensures p.id < b0 { assert Genuine(t, t.chans[c].job, p); }
  }

  lemma RestShrinks(t: State, e: Event, x: nat)
    requires WellFormed(t) && x < |t.casts| && (e.Load? || e.Send?)
    ensures var r := Step(t, e);
      x < |r.casts| && forall c :: c in Rest(r, x) ==> c in Rest(t, x)
  {
    LoopEffect(t, e);
    var r := Step(t, e);
    if r != t && x == e.cast && r.fault == NoFault {
      RestMoves(t, x);
    } else {
      assert Items(r, r.casts[x].view) == Items(t, t.casts[x].view);
    }
  }

  lemma LoopEffect(t: State, e: Event)
    requires WellFormed(t) && (e.Load? || e.Send?)
    ensures var r := Step(t, e);
      && r.arrays == t.arrays && r.subs == t.subs && |r.chans| == |t.chans| && |r.casts| == |t.casts|
      && (forall x :: 0 <= x < |t.casts| ==>
           r.casts[x] == t.casts[x].(next := r.casts[x].next, held := r.casts[x].held)
           && (x != e.cast || r.fault != NoFault ==> r.casts[x] == t.casts[x]))
  {
    hide WellFormed, Target, Offer;
  }

  /** The events that let broadcast `b0` reach `c` first and the older `b` second. */
  lemma Overtake(t: State, b: nat, b0: nat, c: nat) returns (es: seq<Event>)
    requires Ledger(t) && t.fault == NoFault && b < b0 < |t.casts| && c < |t.chans|
    requires !t.casts[b].disturbed && !t.casts[b0].disturbed && c in Rest(t, b) && c in Rest(t, b0)
    ensures LoopsOnly(es) && c < |ExecFrom(t, es).chans| && !InOrder(ExecFrom(t, es).chans[c].offered)
  {
    var first, u := SendUntil(t, b0, c);
    RestSame(t, u, b);
    var second, v := SendUntil(u, b, c);
    es := first + second;
    ExecFromConcat(t, first, second);
    var ps := v.chans[c].offered;
    assert ps[|ps| - 2] == PacketOf(t, b0) && ps[|ps| - 1] == PacketOf(u, b);
  }

  lemma RestSame(t: State, u: State, b: nat)
    requires WellFormed(t) && WellFormed(u) && b < |t.casts| == |u.casts| && u.casts[b] == t.casts[b]
      && u.arrays == t.arrays
    ensures Rest(u, b) == Rest(t, b)
  {
    assert Items(u, u.casts[b].view) == Items(t, t.casts[b].view);
  }

  /** The loop of an undisturbed broadcast runs until `c` has been offered its message. */
  lemma {:induction false} SendUntil(t: State, b: nat, c: nat) returns (es: seq<Event>, u: State)
    requires Ledger(t) && t.fault == NoFault && b < |t.casts| && c < |t.chans|
    requires !t.casts[b].disturbed && c in Rest(t, b)
    ensures LoopsOnly(es) && u == ExecFrom(t, es) && Ledger(u) && u.fault == NoFault
    ensures |u.chans| == |t.chans| && u.chans[c].offered == t.chans[c].offered + [PacketOf(t, b)]
    ensures u.arrays == t.arrays && |u.casts| == |t.casts|
    ensures forall x :: 0 <= x < |t.casts| && x != b ==> u.casts[x] == t.casts[x]
    decreases t.casts[b].view.len - First(t.casts[b]), t.casts[b].view.len - t.casts[b].next
  {
    OneTurn(t, b, c);
    var e := Turn(t.casts[b], b);
    var r := Step(t, e);
    assert Ledger(r) && WellFormed(t) && WellFormed(r);
    ExecNothing(r);
    hide Step, Ledger, Rest, Target, WellFormed, ExecFrom, LoopsOnly;
    if e.Send? && Target(t, b) == c {
      es, u := [], r;
    } else {
      es, u := SendUntil(r, b, c);
    }
    ExecFromCons(t, e, es);
    es := [e] + es;
  }

  lemma ExecNothing(r: State)
    requires WellFormed(r)
    ensures ExecFrom(r, []) == r && LoopsOnly([])
  {}

  lemma ExecFromCons(t: State, e: Event, es: seq<Event>)
    requires WellFormed(t) && LoopsOnly(es) && (e.Load? || e.Send?)
    ensures ExecFrom(t, [e] + es) == ExecFrom(Step(t, e), es) && LoopsOnly([e] + es)
  {
    hide Step;
    assert ([e] + es)[1..] == es;
  }

  /** From `t` to `r` the loop of broadcast `b` alone has taken a step. */
  ghost predicate Turned(t: State, r: State, b: nat) {
    && Ledger(r) && r.fault == NoFault && |r.chans| == |t.chans| && r.arrays == t.arrays
    && |r.casts| == |t.casts| && forall x :: 0 <= x < |t.casts| && x != b ==> r.casts[x] == t.casts[x]
  }

  lemma LoadTurn(t: State, b: nat)
    requires Ledger(t) && t.fault == NoFault && MayLoad(t, b)
    ensures var r := Step(t, Load(b));
      && Turned(t, r, b) && r.chans == t.chans
      && r.casts[b] == t.casts[b].(held := Some(Target(t, b))) && Rest(r, b) == Rest(t, b)
  {
    assert WellFormed(t);
    hide Step, Ledger, Rest, WellFormed, Target;
    LoadIs(t, b);
    LoadMoves(t, b);
    StepKeepsLedger(t, Load(b));
  }

  lemma SendTurn(t: State, b: nat)
    requires Ledger(t) && t.fault == NoFault && MaySend(t, b) && !t.chans[Target(t, b)].closed
    ensures var d, r := Target(t, b), Step(t, Send(b));
      && Turned(t, r, b) && r.chans == t.chans[d := Offer(t.chans[d], PacketOf(t, b))]
      && r.casts[b] == t.casts[b].(next := t.casts[b].next + 1, held := None) && Rest(t, b) == [d] + Rest(r, b)
  {
    assert WellFormed(t);
    hide Step, Ledger, Rest, WellFormed, Target;
    SendIs(t, b);
    SendMoves(t, b);
    StepKeepsLedger(t, Send(b));
  }

  lemma OneTurn(t: State, b: nat, c: nat)
    requires Ledger(t) && t.fault == NoFault && b < |t.casts| && c < |t.chans|
    requires !t.casts[b].disturbed && c in Rest(t, b)
    ensures var e := Turn(t.casts[b], b);
      var r := Step(t, e);
      && Unfinished(t.casts[b]) && Turned(t, r, b)
      && r.casts[b] == (if e.Load? then t.casts[b].(held := Some(Target(t, b)))
                        else t.casts[b].(next := t.casts[b].next + 1, held := None))
      && (if e.Send? && Target(t, b) == c then r.chans[c].offered == t.chans[c].offered + [PacketOf(t, b)]
          else r.chans[c].offered == t.chans[c].offered && c in Rest(r, b))
  {
    assert Unfinished(t.casts[b]);
    assert Inv(t) && WellFormed(t);
    hide Step, Inv, Ledger, Rest, WellFormed, Target;
    UndisturbedTarget(t, b);
    if t.casts[b].held.None? { LoadTurn(t, b); } else { SendTurn(t, b); }
  }
}
