/** The live-log fan-out of internal/backup/engine.go as a state machine.

    One event is one atomic step of one goroutine: `SubscribeLogs` and `unsubscribe` run
    under the mutex, while `broadcastLog` takes a snapshot of the slice header under the
    read lock and then, with the lock released, loads one element at a time from the array
    and sends to it.  A Go slice is a (backing array, length) pair, so that a removal that
    shifts the backing array in place is seen by every snapshot that shares the array. */
module Fanout {
  import opened Values

  /** Buffer size given to `make(LogSubscriber, 50)`. */
  const QUEUE_LIMIT: nat := 50

  /** A message in a channel; `id` numbers the broadcasts in snapshot order. */
  datatype Packet = Packet(id: nat, text: string)

  /** A subscriber channel.  The fields after `closed` are history: steps write them and
      never read them.  `since` and `until` are the numbers of broadcasts issued when the
      channel was registered and closed. */
  datatype Chan = Chan(
    job: int, queue: seq<Packet>, closed: bool,
    since: nat, until: nat,
    offered: seq<Packet>, accepted: seq<Packet>, received: seq<Packet>)

  datatype Slice = Slice(arr: nat, len: nat)

  /** A backing array; `job` is history and names the list the array was allocated for. */
  datatype Backing = Backing(job: int, cells: seq<nat>)

  /** One call of `broadcastLog`: the slice header it read, the index of its next send, and
      the channel it has loaded from that index and not sent to yet.  History: the channels
      the header denoted (`snap`), whether no other broadcast to the job was unfinished at
      the snapshot (`alone`), and whether a subscriber of the job was removed before the last
      send (`disturbed`). */
  datatype Cast = Cast(
    job: int, text: string, view: Slice, next: nat, held: Option<nat>,
    snap: seq<nat>, alone: bool, disturbed: bool)

  /** A Go run-time panic ends the process. */
  datatype Fault = NoFault | SendOnClosed(cast: nat, ch: nat) | CloseOfClosed(ch: nat)

  datatype State = State(
    chans: seq<Chan>, arrays: seq<Backing>, subs: map<int, Slice>, casts: seq<Cast>, fault: Fault)

  /** `room` is the spare capacity `append` allocates when it has to grow. */
  datatype Event =
    | Subscribe(job: int, room: nat)
    | Unsubscribe(ch: nat)
    | Snapshot(job: int, text: string)
    | Load(cast: nat)
    | Send(cast: nat)
    | Receive(ch: nat)

  const INIT: State := State([], [], map[], [], NoFault)

  // ---------------------------------------------------------------- slices

  /** Reading a missing key of the map yields the nil slice. */
  function Lookup(s: State, job: int): Slice {
    if job in s.subs then s.subs[job] else Slice(0, 0)
  }

  predicate InRange(s: State, v: Slice) {
    v.len == 0 || (v.arr < |s.arrays| && v.len <= |s.arrays[v.arr].cells|)
  }

  function Items(s: State, v: Slice): (r: seq<nat>)
    requires InRange(s, v)
    ensures |r| == v.len
  {
    if v.len == 0 then [] else s.arrays[v.arr].cells[..v.len]
  }

  predicate Unfinished(k: Cast) {
    k.next < k.view.len
  }

  /** Every index a step uses is in bounds. */
  ghost predicate WellFormed(s: State) {
    && (forall j :: j in s.subs ==> s.subs[j].arr < |s.arrays| && InRange(s, s.subs[j]))
    && (forall b :: 0 <= b < |s.casts| ==> InRange(s, s.casts[b].view) && s.casts[b].next <= s.casts[b].view.len)
    && (forall b :: 0 <= b < |s.casts| && s.casts[b].held.Some? ==>
          Unfinished(s.casts[b]) && s.casts[b].held.value < |s.chans|)
    && (forall a, i :: 0 <= a < |s.arrays| && 0 <= i < |s.arrays[a].cells| ==> s.arrays[a].cells[i] < |s.chans|)
  }

  /** First index of `ch`, or the length when it is absent. */
  function IndexOf(list: seq<nat>, ch: nat): (i: nat)
    ensures i <= |list|
    ensures i < |list| ==> list[i] == ch
    ensures forall k :: 0 <= k < i ==> list[k] != ch
  {
    if list == [] then 0 else if list[0] == ch then 0 else 1 + IndexOf(list[1..], ch)
  }

  /** What `append(subs[:i], subs[i+1:]...)` leaves in a backing array whose slice had length `n`. */
  function ShiftLeft(cells: seq<nat>, i: nat, n: nat): (r: seq<nat>)
    requires i < n <= |cells|
    ensures |r| == |cells|
    ensures forall k :: 0 <= k < |r| ==> r[k] == if i <= k < n - 1 then cells[k + 1] else cells[k]
  {
    cells[..i] + cells[i + 1..n] + cells[n - 1..]
  }

  // ---------------------------------------------------------------- steps

  /** `append(e.subscribers[jobID], ch)`: in place when the array has room. */
  function Append(s: State, job: int, ch: nat, room: nat): State
    requires WellFormed(s)
  {
    var v := Lookup(s, job);
    if job in s.subs && v.len < |s.arrays[v.arr].cells| then
      var cells := s.arrays[v.arr].cells[v.len := ch];
      s.(arrays := s.arrays[v.arr := s.arrays[v.arr].(cells := cells)],
         subs := s.subs[job := Slice(v.arr, v.len + 1)])
    else
      var cells := Items(s, v) + [ch] + seq(room, _ => 0);
      s.(arrays := s.arrays + [Backing(job, cells)],
         subs := s.subs[job := Slice(|s.arrays|, v.len + 1)])
  }

  function DoSubscribe(s: State, job: int, room: nat): (r: State)
    requires WellFormed(s)
    ensures WellFormed(r)
  {
    Append(s, job, |s.chans|, room).(chans := s.chans + [Chan(job, [], false, |s.casts|, 0, [], [], [])])
  }

  function Disturb(casts: seq<Cast>, job: int): (r: seq<Cast>)
    ensures |r| == |casts|
    ensures forall b :: 0 <= b < |r| ==>
      r[b] == if casts[b].job == job && Unfinished(casts[b]) then casts[b].(disturbed := true) else casts[b]
  {
    seq(|casts|, b requires 0 <= b < |casts| =>
      if casts[b].job == job && Unfinished(casts[b]) then casts[b].(disturbed := true) else casts[b])
  }

  /** The position `unsubscribe` finds its channel at; the list length when it finds none. */
  function Position(s: State, ch: nat): nat
    requires WellFormed(s) && ch < |s.chans|
  {
    IndexOf(Items(s, Lookup(s, s.chans[ch].job)), ch)
  }

  predicate Found(s: State, ch: nat)
    requires WellFormed(s) && ch < |s.chans|
  {
    Position(s, ch) < Lookup(s, s.chans[ch].job).len
  }

  function DoUnsubscribe(s: State, ch: nat): (r: State)
    requires WellFormed(s) && ch < |s.chans|
    ensures WellFormed(r)
  {
    var job := s.chans[ch].job;
    var v := Lookup(s, job);
    var i := Position(s, ch);
    if !Found(s, ch) then s
    else
      var cells := ShiftLeft(s.arrays[v.arr].cells, i, v.len);
      var s1 := s.(arrays := s.arrays[v.arr := s.arrays[v.arr].(cells := cells)],
                   subs := s.subs[job := Slice(v.arr, v.len - 1)],
                   casts := Disturb(s.casts, job));
      if s.chans[ch].closed then s1.(fault := CloseOfClosed(ch))
      else s1.(chans := s.chans[ch := s.chans[ch].(closed := true, until := |s.casts|)])
  }

  function DoSnapshot(s: State, job: int, text: string): (r: State)
    requires WellFormed(s)
    ensures WellFormed(r)
  {
    var v := Lookup(s, job);
    var alone := forall b :: 0 <= b < |s.casts| && s.casts[b].job == job ==> !Unfinished(s.casts[b]);
    s.(casts := s.casts + [Cast(job, text, v, 0, None, Items(s, v), alone, false)])
  }

  /** The channel the next send of broadcast `b` goes to: the one it holds, or else the one
      the array has at its index now. */
  function Target(s: State, b: nat): (c: nat)
    requires WellFormed(s) && b < |s.casts| && Unfinished(s.casts[b])
    ensures c < |s.chans|
  {
    if s.casts[b].held.Some? then s.casts[b].held.value else s.arrays[s.casts[b].view.arr].cells[s.casts[b].next]
  }

  /** The loop loads the element of the array. */
  predicate MayLoad(s: State, b: nat)
    requires WellFormed(s)
  {
    b < |s.casts| && Unfinished(s.casts[b]) && s.casts[b].held.None?
  }

  /** The loop sends to the element it has loaded. */
  predicate MaySend(s: State, b: nat)
    requires WellFormed(s)
  {
    b < |s.casts| && s.casts[b].held.Some?
  }

  /** The next step of the loop of broadcast `b`. */
  function Turn(k: Cast, b: nat): Event {
    if k.held.None? then Load(b) else Send(b)
  }

  function DoLoad(s: State, b: nat): (r: State)
    requires WellFormed(s) && MayLoad(s, b)
    ensures WellFormed(r)
  {
    s.(casts := s.casts[b := s.casts[b].(held := Some(Target(s, b)))])
  }

  function PacketOf(s: State, b: nat): Packet
    requires b < |s.casts|
  {
    Packet(b, s.casts[b].text)
  }

  /** The non-blocking send: a full buffer drops the message. */
  function Offer(c: Chan, p: Packet): Chan {
    if |c.queue| < QUEUE_LIMIT
    then c.(queue := c.queue + [p], offered := c.offered + [p], accepted := c.accepted + [p])
    else c.(offered := c.offered + [p])
  }

  function DoSend(s: State, b: nat): (r: State)
    requires WellFormed(s) && MaySend(s, b)
    ensures WellFormed(r)
  {
    var c := Target(s, b);
    if s.chans[c].closed then s.(fault := SendOnClosed(b, c))
    else s.(chans := s.chans[c := Offer(s.chans[c], PacketOf(s, b))],
            casts := s.casts[b := s.casts[b].(next := s.casts[b].next + 1, held := None)])
  }

  function DoReceive(s: State, ch: nat): (r: State)
    requires WellFormed(s) && ch < |s.chans|
    ensures WellFormed(r)
  {
    var c := s.chans[ch];
    if c.queue == [] then s
    else s.(chans := s.chans[ch := c.(queue := c.queue[1..], received := c.received + [c.queue[0]])])
  }

  /** One event; an event that is not possible in `s` leaves it unchanged. */
  function Step(s: State, e: Event): (r: State)
    requires WellFormed(s)
    ensures WellFormed(r)
  {
    if s.fault != NoFault then s
    else match e
      case Subscribe(job, room) => DoSubscribe(s, job, room)
      case Unsubscribe(ch) => if ch < |s.chans| then DoUnsubscribe(s, ch) else s
      case Snapshot(job, text) => DoSnapshot(s, job, text)
      case Load(b) => if MayLoad(s, b) then DoLoad(s, b) else s
      case Send(b) => if MaySend(s, b) then DoSend(s, b) else s
      case Receive(ch) => if ch < |s.chans| then DoReceive(s, ch) else s
  }

  /** The state after the events of `es`, in order, from the empty engine. */
  function Exec(es: seq<Event>): (s: State)
    ensures WellFormed(s)
  {
    if es == [] then INIT else Step(Exec(es[..|es| - 1]), es[|es| - 1])
  }

  lemma ExecSnoc(es: seq<Event>, e: Event)
    ensures Exec(es + [e]) == Step(Exec(es), e)
  {
    assert (es + [e])[..|es|] == es;
  }

  /** Running `es` from `s`. */
  function ExecFrom(s: State, es: seq<Event>): (r: State)
    requires WellFormed(s)
    ensures WellFormed(r)
    decreases |es|
  {
    if es == [] then s else ExecFrom(Step(s, es[0]), es[1..])
  }

  lemma {:induction false} ExecSplit(es: seq<Event>, more: seq<Event>)
    ensures Exec(es + more) == ExecFrom(Exec(es), more)
    decreases |more|
  {
    if more == [] {
      assert es + more == es;
    } else {
      assert es + more == (es + [more[0]]) + more[1..];
      assert (es + [more[0]])[..|es|] == es;
      ExecSplit(es + [more[0]], more[1..]);
    }
  }

  lemma {:induction false} ExecFromConcat(s: State, a: seq<Event>, b: seq<Event>)
    requires WellFormed(s)
    ensures ExecFrom(s, a + b) == ExecFrom(ExecFrom(s, a), b)
    decreases |a|
  {
    if a == [] {
      assert a + b == b;
    } else {
      assert (a + b)[1..] == a[1..] + b;
      ExecFromConcat(Step(s, a[0]), a[1..], b);
    }
  }
}
