/** `sseWriter`: every `Write` broadcasts the non-blank lines of its argument and appends the
    argument to the log buffer. */
module LogWriter {
  import opened GoText
  import Fanout
  import FanoutDelivery
  import LogEngine

  // ---------------------------------------------------------------- specification

  /** The lines that are not white space only, in order. */
  function NonBlank(lines: seq<string>): (r: seq<string>)
    ensures forall m :: m in r ==> m in lines && !Blank(m)
  {
    if lines == [] then []
    else (if Blank(lines[0]) then [] else [lines[0]]) + NonBlank(lines[1..])
  }

  /** What one `Write` broadcasts. */
  function Messages(p: string): seq<string> {
    NonBlank(Split(p, '\n'))
  }

  /** What a sequence of writes broadcasts. */
  function Stream(writes: seq<string>): seq<string> {
    if writes == [] then [] else Stream(writes[..|writes| - 1]) + Messages(writes[|writes| - 1])
  }

  /** What a sequence of writes leaves in the buffer. */
  function Buffer(writes: seq<string>): string {
    if writes == [] then [] else Buffer(writes[..|writes| - 1]) + writes[|writes| - 1]
  }

  /** Consecutive uninterrupted broadcasts. */
  ghost function BroadcastAll(s: Fanout.State, job: int, msgs: seq<string>): (r: Fanout.State)
    requires Fanout.WellFormed(s)
    ensures Fanout.WellFormed(r)
  {
    if msgs == [] then s
    else LogEngine.Broadcast(BroadcastAll(s, job, msgs[..|msgs| - 1]), job, msgs[|msgs| - 1])
  }

  lemma {:induction false} BroadcastAllKeepsLedger(s: Fanout.State, job: int, msgs: seq<string>)
    requires FanoutDelivery.Ledger(s) && s.fault == Fanout.NoFault
    ensures FanoutDelivery.Ledger(BroadcastAll(s, job, msgs)) && BroadcastAll(s, job, msgs).fault == Fanout.NoFault
  {
    if msgs != [] {
      hide FanoutDelivery.Ledger, Fanout.WellFormed, LogEngine.Broadcast;
      BroadcastAllKeepsLedger(s, job, msgs[..|msgs| - 1]);
      LogEngine.BroadcastKeepsLedger(BroadcastAll(s, job, msgs[..|msgs| - 1]), job, msgs[|msgs| - 1]);
    }
  }

  /** Consecutive broadcasts offer an open channel of the job their messages in order, and
      other channels nothing. */
  lemma {:induction false} BroadcastAllOffers(s: Fanout.State, job: int, msgs: seq<string>, c: nat)
    requires FanoutDelivery.Ledger(s) && s.fault == Fanout.NoFault && c < |s.chans|
    ensures LogEngine.Reaches(s, BroadcastAll(s, job, msgs), job, msgs, c)
  {
    if msgs == [] {
      LogEngine.ReachesItself(s, job, c);
    } else {
      var init, m := msgs[..|msgs| - 1], msgs[|msgs| - 1];
      assert Fanout.WellFormed(s);
      assert BroadcastAll(s, job, msgs) == LogEngine.Broadcast(BroadcastAll(s, job, init), job, m);
      assert init + [m] == msgs;
      hide *;
      BroadcastAllOffers(s, job, init, c);
      BroadcastAllKeepsLedger(s, job, init);
      LastBroadcastOffers(s, BroadcastAll(s, job, init), job, init, m, c);
    }
  }

  lemma LastBroadcastOffers(s: Fanout.State, t: Fanout.State, job: int, init: seq<string>, m: string, c: nat)
    requires FanoutDelivery.Ledger(t) && t.fault == Fanout.NoFault
    requires LogEngine.Reaches(s, t, job, init, c)
    ensures LogEngine.Reaches(s, LogEngine.Broadcast(t, job, m), job, init + [m], c)
  {
    LogEngine.UninterruptedBroadcast(t, job, m, c);
    LogEngine.ReachesCompose(s, t, LogEngine.Broadcast(t, job, m), job, init, [m], c);
  }

  lemma {:induction false} BroadcastAllConcat(s: Fanout.State, job: int, a: seq<string>, b: seq<string>)
    requires Fanout.WellFormed(s)
    ensures BroadcastAll(s, job, a + b) == BroadcastAll(BroadcastAll(s, job, a), job, b)
  {
    hide LogEngine.Broadcast, Fanout.WellFormed;
    if b == [] {
      assert a + b == a;
    } else {
      BroadcastAllConcat(s, job, a, b[..|b| - 1]);
      assert (a + b)[..|a + b| - 1] == a + b[..|b| - 1];
    }
  }

  // ---------------------------------------------------------------- the writer object

  class SseWriter {
    const jobID: int
    const engine: LogEngine.Engine
    var buf: string

    constructor (jobID: int, engine: LogEngine.Engine)
      ensures this.jobID == jobID && this.engine == engine && buf == []
    {
      this.jobID, this.engine, buf := jobID, engine, [];
    }

    /** The engine is in a state of the fan-out's invariant and has not panicked. */
    ghost predicate Ready()
      reads this, engine, engine.backing
    {
      engine.Valid() && FanoutDelivery.Ledger(engine.View()) && engine.fault == Fanout.NoFault
    }

    /** One call of `broadcastLog` after those for `done`. */
    method SendLine(ghost before: Fanout.State, ghost done: seq<string>, line: string)
      requires Ready() && Fanout.WellFormed(before) && engine.View() == BroadcastAll(before, jobID, done)
      modifies engine
      ensures Ready() && engine.backing == old(engine.backing)
      ensures engine.View() == BroadcastAll(before, jobID, done + [line])
    {
      LogEngine.BroadcastKeepsLedger(engine.View(), jobID, line);
      engine.BroadcastLog(jobID, line);
      assert (done + [line])[..|done|] == done;
    }

    /** The loop of `Write`: one broadcast per non-blank line. */
    method SendLines(lines: seq<string>)
      requires Ready()
      modifies engine
      ensures Ready() && engine.backing == old(engine.backing)
      ensures engine.View() == BroadcastAll(old(engine.View()), jobID, NonBlank(lines))
    {
      ghost var before, sent := engine.View(), [];
      var i := 0;
      while i < |lines|
        invariant 0 <= i <= |lines| && Ready() && engine.backing == old(engine.backing)
        invariant sent == NonBlank(lines[..i]) && engine.View() == BroadcastAll(before, jobID, sent)
      {
        NonBlankSnoc(lines, i);
        if TrimSpace(lines[i]) != "" {
          SendLine(before, sent, lines[i]);
          sent := sent + [lines[i]];
        }
        i := i + 1;
      }
      assert lines[..|lines|] == lines;
    }

    /** `Write`: the non-blank lines are broadcast, then everything is appended. */
    method Write(p: string)
      requires Ready()
      modifies this, engine
      ensures Ready() && engine.backing == old(engine.backing)
      ensures engine.View() == BroadcastAll(old(engine.View()), jobID, Messages(p))
      ensures buf == old(buf) + p
    {
      SendLines(Split(p, '\n'));
      buf := buf + p;
    }
  }

  lemma NonBlankSnoc(lines: seq<string>, i: nat)
    requires i < |lines|
    ensures NonBlank(lines[..i + 1]) == NonBlank(lines[..i]) + if Blank(lines[i]) then [] else [lines[i]]
  {
    NonBlankConcat(lines[..i], [lines[i]]);
    assert lines[..i + 1] == lines[..i] + [lines[i]];
  }

  lemma {:induction false} NonBlankConcat(a: seq<string>, b: seq<string>)
    ensures NonBlank(a + b) == NonBlank(a) + NonBlank(b)
  {
    hide Blank;
    if a == [] {
      assert a + b == b;
    } else {
      NonBlankConcat(a[1..], b);
      assert (a + b)[1..] == a[1..] + b;
      Associate(if Blank(a[0]) then [] else [a[0]], NonBlank(a[1..]), NonBlank(b));
    }
  }

  lemma Associate(a: seq<string>, b: seq<string>, c: seq<string>)
    ensures (a + b) + c == a + (b + c)
  {}

  // ---------------------------------------------------------------- streaming against batch

  /** Two pieces of a line are both white space, or one is empty. */
  predicate Clean(x: string, y: string) {
    x == "" || y == "" || (Blank(x) && Blank(y))
  }

  /** Before write `k` the unfinished last line of the buffer and the first line of the write
      fit together. */
  predicate CleanAt(writes: seq<string>, k: nat)
    requires k < |writes|
  {
    Clean(LastLine(Buffer(writes[..k])), FirstLine(writes[k]))
  }

  function Total(msgs: seq<string>): nat {
    if msgs == [] then 0 else |msgs[0]| + Total(msgs[1..])
  }

  lemma {:induction false} TotalConcat(a: seq<string>, b: seq<string>)
    ensures Total(a + b) == Total(a) + Total(b)
  {
    if a == [] {
      assert a + b == b;
    } else {
      TotalConcat(a[1..], b);
      assert (a + b)[1..] == a[1..] + b;
    }
  }

  lemma BlankConcat(x: string, y: string)
    ensures Blank(x + y) <==> Blank(x) && Blank(y)
  {
    BlankIff(x);
    BlankIff(y);
    BlankIff(x + y);
    assert forall i :: 0 <= i < |x| ==> (x + y)[i] == x[i];
    assert forall i :: 0 <= i < |y| ==> (x + y)[|x| + i] == y[i];
  }

  /** Gluing two pieces of a line: never more messages, never shorter text, and the same
      messages exactly when the pieces fit. */
  lemma GluePieces(x: string, y: string)
    ensures var apart, glued := NonBlank([x]) + NonBlank([y]), NonBlank([x + y]);
      && |glued| <= |apart| && Total(apart) <= Total(glued)
      && (Clean(x, y) ==> apart == glued)
      && (!Clean(x, y) ==> |glued| < |apart| || Total(apart) < Total(glued))
  {
    BlankConcat(x, y);
    assert x + "" == x && "" + y == y;
    assert Blank("");
    TotalConcat(NonBlank([x]), NonBlank([y]));
  }

  lemma NonBlankMiddle(a: seq<string>, m: seq<string>, b: seq<string>)
    ensures NonBlank(a + m + b) == NonBlank(a) + NonBlank(m) + NonBlank(b)
  {
    NonBlankConcat(a + m, b);
    NonBlankConcat(a, m);
  }

  /** The non-blank lines of two lists of lines, glued and apart, with the pieces at the seam. */
  lemma Seam(s: seq<string>, t: seq<string>) returns (front: seq<string>, back: seq<string>)
    requires s != [] && t != []
    ensures NonBlank(Glue(s, t)) == front + NonBlank([s[|s| - 1] + t[0]]) + back
    ensures NonBlank(s) + NonBlank(t) == front + (NonBlank([s[|s| - 1]]) + NonBlank([t[0]])) + back
  {
    hide NonBlank;
    var a, x, y, c := s[..|s| - 1], s[|s| - 1], t[0], t[1..];
    front, back := NonBlank(a), NonBlank(c);
    NonBlankMiddle(a, [x + y], c);
    assert s == a + [x] && t == [y] + c;
    NonBlankConcat(a, [x]);
    NonBlankConcat([y], c);
    Regroup(front, NonBlank([x]), NonBlank([y]), back);
  }

  lemma Regroup(a: seq<string>, b: seq<string>, c: seq<string>, d: seq<string>)
    ensures (a + b) + (c + d) == a + (b + c) + d
  {}

  /** Adding one write to a buffer. */
  lemma OneMoreWrite(b: string, p: string)
    ensures var apart, glued := Messages(b) + Messages(p), Messages(b + p);
      && |glued| <= |apart| && Total(apart) <= Total(glued)
      && (Clean(LastLine(b), FirstLine(p)) ==> apart == glued)
      && (!Clean(LastLine(b), FirstLine(p)) ==> |glued| < |apart| || Total(apart) < Total(glued))
  {
    var x, y := LastLine(b), FirstLine(p);
    SplitConcat(b, p, '\n');
    var front, back := Seam(Split(b, '\n'), Split(p, '\n'));
    GluePieces(x, y);
    TotalOfThree(front, NonBlank([x + y]), back);
    TotalOfThree(front, NonBlank([x]) + NonBlank([y]), back);
  }

  lemma TotalOfThree(a: seq<string>, b: seq<string>, c: seq<string>)
    ensures Total(a + b + c) == Total(a) + Total(b) + Total(c)
  {
    TotalConcat(a + b, c);
    TotalConcat(a, b);
  }

  ghost predicate AllClean(writes: seq<string>) {
    forall k :: 0 <= k < |writes| ==> CleanAt(writes, k)
  }

  lemma AllCleanSnoc(writes: seq<string>)
    requires writes != []
    ensures var n := |writes| - 1; AllClean(writes) <==> AllClean(writes[..n]) && CleanAt(writes, n)
  {
    hide Clean, Buffer;
    var n := |writes| - 1;
    forall k | 0 <= k < n ensures CleanAt(writes, k) <==> CleanAt(writes[..n], k) {
      assert writes[..k] == writes[..n][..k];
    }
  }

  /** Streaming sends at least as many messages and at most as much text as the batch. */
  lemma {:induction false} StreamAgainstBatch(writes: seq<string>)
    ensures var stream, batch := Stream(writes), Messages(Buffer(writes));
      && |batch| <= |stream| && Total(stream) <= Total(batch)
      && (AllClean(writes) ==> stream == batch)
      && (!AllClean(writes) ==> |batch| < |stream| || Total(stream) < Total(batch))
  {
    if writes == [] {
      assert Blank("");
    } else {
      var n := |writes| - 1;
      StreamAgainstBatch(writes[..n]);
      OneMoreWrite(Buffer(writes[..n]), writes[n]);
      TotalConcat(Stream(writes[..n]), Messages(writes[n]));
      TotalConcat(Messages(Buffer(writes[..n])), Messages(writes[n]));
      AllCleanSnoc(writes);
    }
  }

  /** The messages broadcast line by line as the log is written are the non-blank lines of
      the final log, in order, exactly when at every write the unfinished last line and the
      continuation fit: one of them empty, or both white space only. */
  lemma StreamEqualsBatchIff(writes: seq<string>)
    ensures Stream(writes) == Messages(Buffer(writes)) <==> AllClean(writes)
  {
    StreamAgainstBatch(writes);
  }

  lemma SameTail(front: seq<string>, a: seq<string>, b: seq<string>)
    ensures front + a == front + b <==> a == b
  {
    if front + a == front + b {
      assert a == (front + a)[|front|..] && b == (front + b)[|front|..];
    }
  }

  /** What an open subscriber of the job is offered while the log is written without
      interruption is the non-blank lines of the final log under the same condition. */
  lemma LiveLogIsFinalLogIff(s: Fanout.State, job: int, writes: seq<string>, c: nat)
    requires FanoutDelivery.Ledger(s) && s.fault == Fanout.NoFault && c < |s.chans|
    requires s.chans[c].job == job && !s.chans[c].closed
    ensures var t := BroadcastAll(s, job, Stream(writes));
      && c < |t.chans|
      && (LogEngine.Texts(t.chans[c].offered) == LogEngine.Texts(s.chans[c].offered) + Messages(Buffer(writes))
          <==> AllClean(writes))
  {
    BroadcastAllOffers(s, job, Stream(writes), c);
    StreamEqualsBatchIff(writes);
    hide Stream, Messages, Buffer, AllClean, BroadcastAll;
    SameTail(LogEngine.Texts(s.chans[c].offered), Stream(writes), Messages(Buffer(writes)));
  }

  predicate NewlineTerminated(p: string) {
    p != [] && p[|p| - 1] == '\n'
  }

  lemma {:induction false} TerminatedHasNoRest(p: string)
    requires NewlineTerminated(p)
    ensures LastLine(p) == ""
  {
    var n := |p| - 1;
    assert p == p[..n] + ['\n'];
    SplitConcat(p[..n], ['\n'], '\n');
    assert Split(['\n'], '\n') == [[], []];
  }

  /** `fmt.Fprintf(writer, "...\n")`: for newline-terminated writes the broadcast messages
      are exactly the non-blank lines of the final log. */
  lemma TerminatedWritesAgree(writes: seq<string>)
    requires forall p :: p in writes ==> NewlineTerminated(p)
    ensures Stream(writes) == Messages(Buffer(writes))
  {
    forall k | 0 <= k < |writes| ensures CleanAt(writes, k) { TerminatedClean(writes, k); }
    hide Stream, Messages, Buffer, CleanAt;
    StreamEqualsBatchIff(writes);
  }

  lemma TerminatedClean(writes: seq<string>, k: nat)
    requires k < |writes| && forall p :: p in writes ==> NewlineTerminated(p)
    ensures CleanAt(writes, k)
  {
    if k == 0 {
      assert Split([], '\n') == [[]];
    } else {
      var init := writes[..k];
      assert init[k - 1] in writes && init[k - 1] == writes[k - 1];
      var b := Buffer(init[..k - 1]);
      assert Buffer(init) == b + writes[k - 1];
      assert NewlineTerminated(b + writes[k - 1]);
      hide Buffer, Split;
      TerminatedHasNoRest(b + writes[k - 1]);
    }
  }

  lemma WriteSnoc(writes: seq<string>, p: string)
    ensures Stream(writes + [p]) == Stream(writes) + Messages(p)
    ensures Buffer(writes + [p]) == Buffer(writes) + p
  {
    assert (writes + [p])[..|writes|] == writes;
  }

  /** The output of a subprocess arrives in arbitrary chunks: a line whose two pieces arrive
      in two writes is broadcast as two messages. */
  lemma ChunkedLineIsCut(x: string, y: string)
    requires x != "" && y != "" && !IsSpace(x[0]) && !IsSpace(y[0]) && '\n' !in x && '\n' !in y
    ensures Stream([] + [x] + [y + "\n"]) == [x, y]
    ensures Messages(Buffer([] + [x] + [y + "\n"])) == [x + y]
  {
    assert Stream([]) == [] && Buffer([]) == [];
    SplitNone(x, '\n');
    assert Messages(x) == NonBlank([x]);
    assert [] + x + (y + "\n") == x + y + "\n";
    assert [] + [x] + [y] == [x, y];
    assert x + y != "" && (x + y)[0] == x[0] && '\n' !in x + y;
    hide *;
    WriteSnoc([], x);
    WriteSnoc([] + [x], y + "\n");
    OneWord(x);
    OneLine(y);
    OneLine(x + y);
  }

  lemma OneWord(w: string)
    requires w != "" && !IsSpace(w[0])
    ensures NonBlank([w]) == [w]
  {
    BlankIff(w);
  }

  lemma OneLine(w: string)
    requires w != "" && !IsSpace(w[0]) && '\n' !in w
    ensures Messages(w + "\n") == [w]
  {
    SplitHead(w, "", '\n');
    assert w + ['\n'] + "" == w + "\n";
    assert Split("", '\n') == [""];
    NonBlankConcat([w], [""]);
    OneWord(w);
    assert Blank("");
  }
}
