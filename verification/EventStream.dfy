/** `HandleSSELogs`: the path it is reached by, the frames it writes, and what a browser that
    parses them by sections 9.2.5 and 9.2.6 of the WHATWG HTML Living Standard receives. */
module EventStream {
  import opened Values
  import opened GoText
  import LogWriter

  // ---------------------------------------------------------------- the frames written

  predicate OneLine(s: string) {
    '\n' !in s && '\r' !in s
  }

  /** The CSS class of a log line. */
  function LineClass(msg: string): (c: string)
    ensures c in {"log-info", "log-error", "log-success", "log-warning"}
  {
    if Contains(msg, "ERREUR") || Contains(msg, "failed") || Contains(msg, "Error") then "log-error"
    else if Contains(msg, "succès") || Contains(msg, "réussi") then "log-success"
    else if Contains(msg, "Retention") then "log-warning"
    else "log-info"
  }

  lemma ContainsAround(a: string, msg: string, b: string, word: string)
    requires Contains(msg, word)
    ensures Contains(a + msg + b, word)
  {
    var i: nat :| i + |word| <= |msg| && FoundAt(msg, word, i);
    assert (a + msg + b)[|a| + i..|a| + i + |word|] == msg[i..i + |word|];
    assert FoundAt(a + msg + b, word, |a| + i);
  }

  /** A line with a word of failure is shown as an error whatever surrounds it: success and
      retention words never outweigh it. */
  lemma ErrorOutweighs(a: string, msg: string, b: string)
    requires LineClass(msg) == "log-error"
    ensures LineClass(a + msg + b) == "log-error"
  {
    assert |"log-error"| == 9 && |"log-success"| == 11 && |"log-warning"| == 11 && |"log-info"| == 8;
    hide Contains;
    if Contains(msg, "ERREUR") { ContainsAround(a, msg, b, "ERREUR"); }
    else if Contains(msg, "failed") { ContainsAround(a, msg, b, "failed"); }
    else { ContainsAround(a, msg, b, "Error"); }
  }

  function Html(cls: string, msg: string): string {
    "<div class=\"log-line " + cls + "\">" + msg + "</div>"
  }

  function Opening(): (r: string)
    ensures OneLine(r)
  {
    "<div class=\"log-line\">" + "Connexion à la "
  }

  function Subject(): (r: string)
    ensures OneLine(r)
  {
    "console de logs du job #"
  }

  function Closing(): (r: string)
    ensures OneLine(r)
  {
    " établie...</div>"
  }

  function Greeting(jobID: int): string {
    Opening() + Subject() + IntText(jobID) + Closing()
  }

  function Frame(data: string): string {
    "event: message" + "\n" + "data: " + data + "\n" + "\n"
  }

  function Frames(datas: seq<string>): string {
    if datas == [] then "" else Frame(datas[0]) + Frames(datas[1..])
  }

  /** The data of every frame of a connection that received `msgs`. */
  function Payloads(jobID: int, msgs: seq<string>): seq<string> {
    [Greeting(jobID)] + seq(|msgs|, i requires 0 <= i < |msgs| => Payload(msgs[i]))
  }

  /** The formatting of one line in the consumer loop. */
  method FormatLine(msg: string) returns (html: string)
    ensures html == Html(LineClass(msg), msg)
  {
    var lineClass := "log-info";
    if Contains(msg, "ERREUR") || Contains(msg, "failed") || Contains(msg, "Error") {
      lineClass := "log-error";
    } else if Contains(msg, "succès") || Contains(msg, "réussi") {
      lineClass := "log-success";
    } else if Contains(msg, "Retention") {
      lineClass := "log-warning";
    }
    html := Html(lineClass, msg);
  }

  /** The data of the frame of one message. */
  function Payload(msg: string): string {
    Html(LineClass(msg), msg)
  }

  /** The consumer loop: `sent` are the data it framed. */
  method ConsumerLoop(msgs: seq<string>) returns (out: string, ghost sent: seq<string>)
    ensures out == Frames(sent) && |sent| == |msgs|
    ensures forall i :: 0 <= i < |msgs| ==> sent[i] == Payload(msgs[i])
  {
    out, sent := "", [];
    for i := 0 to |msgs|
      invariant out == Frames(sent) && |sent| == i
      invariant forall k :: 0 <= k < i ==> sent[k] == Payload(msgs[k])
    {
      var html := FormatLine(msgs[i]);
      FramesSnoc(sent, html);
      out, sent := out + Frame(html), sent + [html];
    }
  }

  /** The response of `HandleSSELogs` after its consumer loop has received `msgs`. */
  method ServeLogs(jobID: int, msgs: seq<string>) returns (out: string)
    ensures out == Frames(Payloads(jobID, msgs))
  {
    hide *;
    out := Frame(Greeting(jobID));
    var rest, sent := ConsumerLoop(msgs);
    out := out + rest;
    FramesCons(Greeting(jobID), sent);
    PayloadsAre(jobID, msgs, sent);
  }

  lemma PayloadsAre(jobID: int, msgs: seq<string>, sent: seq<string>)
    requires |sent| == |msgs| && forall i :: 0 <= i < |msgs| ==> sent[i] == Payload(msgs[i])
    ensures [Greeting(jobID)] + sent == Payloads(jobID, msgs)
  {
    hide Greeting, Payload;
  }

  lemma FramesCons(d: string, datas: seq<string>)
    ensures Frames([d] + datas) == Frame(d) + Frames(datas)
  {
    assert ([d] + datas)[1..] == datas;
  }

  lemma {:induction false} FramesSnoc(datas: seq<string>, d: string)
    ensures Frames(datas + [d]) == Frames(datas) + Frame(d)
  {
    if datas == [] {
      assert [] + [d] == [d] && [d][1..] == [];
    } else {
      FramesSnoc(datas[1..], d);
      assert (datas + [d])[1..] == datas[1..] + [d];
    }
  }

  // ---------------------------------------------------------------- the standard's parser

  datatype Event = Event(kind: string, data: string)

  /** Index of the first carriage return or line feed. */
  function LineEnd(s: string): (i: nat)
    ensures i <= |s|
    ensures forall k :: 0 <= k < i ==> s[k] != '\n' && s[k] != '\r'
    ensures i < |s| ==> s[i] == '\n' || s[i] == '\r'
  {
    if s == [] || s[0] == '\n' || s[0] == '\r' then 0 else 1 + LineEnd(s[1..])
  }

  /** The complete lines: CRLF, LF and CR end a line, and an unfinished line is none. */
  function Lines(s: string): (r: seq<string>)
    ensures forall l :: l in r ==> '\n' !in l && '\r' !in l
    decreases |s|
  {
    var i := LineEnd(s);
    if i == |s| then []
    else if s[i] == '\r' && i + 1 < |s| && s[i + 1] == '\n' then [s[..i]] + Lines(s[i + 2..])
    else [s[..i]] + Lines(s[i + 1..])
  }

  function ColonIndex(line: string): (i: nat)
    ensures i <= |line| && (i < |line| ==> line[i] == ':')
  {
    if line == [] || line[0] == ':' then 0 else 1 + ColonIndex(line[1..])
  }

  /** The value of a field: one leading space is dropped. */
  function FieldValue(line: string): string {
    var i := ColonIndex(line);
    if i == |line| then ""
    else if i + 1 < |line| && line[i + 1] == ' ' then line[i + 2..]
    else line[i + 1..]
  }

  function FieldName(line: string): string {
    line[..ColonIndex(line)]
  }

  /** Processing the lines with the event type buffer and the data buffer. */
  function Process(lines: seq<string>, kind: string, data: string): seq<Event>
    decreases |lines|
  {
    if lines == [] then []
    else if lines[0] == "" then
      (if data == "" then []
       else [Event(if kind == "" then "message" else kind, data[..|data| - 1])])
      + Process(lines[1..], "", "")
    else if lines[0][0] == ':' then Process(lines[1..], kind, data)
    else if FieldName(lines[0]) == "event" then Process(lines[1..], FieldValue(lines[0]), data)
    else if FieldName(lines[0]) == "data" then Process(lines[1..], kind, data + FieldValue(lines[0]) + "\n")
    else Process(lines[1..], kind, data)
  }

  const BOM: char := 0xFEFF as char

  function Parse(s: string): seq<Event> {
    Process(Lines(if s != [] && s[0] == BOM then s[1..] else s), "", "")
  }

  // ---------------------------------------------------------------- round trip

  lemma {:induction false} LineEndAt(l: string, c: char, rest: string)
    requires OneLine(l) && (c == '\n' || c == '\r')
    ensures LineEnd(l + [c] + rest) == |l|
  {
    var s := l + [c] + rest;
    assert s[|l|] == c;
    assert forall k :: 0 <= k < |l| ==> s[k] == l[k];
  }

  lemma LinesHead(l: string, rest: string)
    requires OneLine(l)
    ensures Lines(l + "\n" + rest) == [l] + Lines(rest)
  {
    LineEndAt(l, '\n', rest);
    var s := l + "\n" + rest;
    assert s == l + ['\n'] + rest;
    assert s[..|l|] == l && s[|l| + 1..] == rest;
  }

  lemma DataField(d: string)
    ensures FieldName("data: " + d) == "data" && FieldValue("data: " + d) == d
  {
    var l := "data: " + d;
    assert l[0] == 'd' && l[1] == 'a' && l[2] == 't' && l[3] == 'a' && l[4] == ':' && l[5] == ' ';
    assert l[1..][1..][1..][1..] == l[4..];
    assert ColonIndex(l[4..]) == 0;
    assert ColonIndex(l[3..]) == 1 by { assert l[3..][1..] == l[4..] && l[3..][0] == 'a'; }
    assert ColonIndex(l[2..]) == 2 by { assert l[2..][1..] == l[3..] && l[2..][0] == 't'; }
    assert ColonIndex(l[1..]) == 3 by { assert l[1..][1..] == l[2..] && l[1..][0] == 'a'; }
    assert ColonIndex(l) == 4;
    assert l[..4] == "data";
    assert l[6..] == d;
  }

  lemma EventField()
    ensures FieldName("event: message") == "event" && FieldValue("event: message") == "message"
  {
    var l := "event: message";
    assert ColonIndex(l[5..]) == 0;
    assert ColonIndex(l[4..]) == 1 by { assert l[4..][1..] == l[5..]; }
    assert ColonIndex(l[3..]) == 2 by { assert l[3..][1..] == l[4..]; }
    assert ColonIndex(l[2..]) == 3 by { assert l[2..][1..] == l[3..]; }
    assert ColonIndex(l[1..]) == 4 by { assert l[1..][1..] == l[2..]; }
    assert ColonIndex(l) == 5;
    assert l[..5] == "event" && l[7..] == "message";
  }

  /** One frame of one-line data is one event. */
  lemma FrameIsEvent(d: string, rest: string)
    requires OneLine(d)
    ensures Process(Lines(Frame(d) + rest), "", "") == [Event("message", d)] + Process(Lines(rest), "", "")
  {
    var e, l := "event: message", "data: " + d;
    EventField();
    DataField(d);
    FrameLines(d, rest);
    ProcessFrame(e, l, d, Lines(rest));
  }

  lemma FrameLines(d: string, rest: string)
    requires OneLine(d)
    ensures Lines(Frame(d) + rest) == ["event: message", "data: " + d, ""] + Lines(rest)
  {
    hide Lines;
    var e, l := "event: message", "data: " + d;
    assert Frame(d) + rest == e + "\n" + (l + "\n" + ("" + "\n" + rest));
    LinesHead(e, l + "\n" + ("" + "\n" + rest));
    LinesHead(l, "" + "\n" + rest);
    LinesHead("", rest);
  }

  lemma ProcessFrame(e: string, l: string, d: string, more: seq<string>)
    requires e != "" && e[0] != ':' && FieldName(e) == "event" && FieldValue(e) == "message"
    requires l != "" && l[0] != ':' && FieldName(l) == "data" && FieldValue(l) == d
    ensures Process([e, l, ""] + more, "", "") == [Event("message", d)] + Process(more, "", "")
  {
    var all := [e, l, ""] + more;
    assert all[1..] == [l, ""] + more && ([l, ""] + more)[1..] == [""] + more && ([""] + more)[1..] == more;
    var data := "" + d + "\n";
    assert data[..|data| - 1] == d;
    assert Process([""] + more, "message", data) == [Event("message", d)] + Process(more, "", "");
    assert Process([l, ""] + more, "message", "") == Process([""] + more, "message", data);
  }

  function Events(datas: seq<string>): (r: seq<Event>)
    ensures |r| == |datas| && forall i :: 0 <= i < |r| ==> r[i] == Event("message", datas[i])
  {
    seq(|datas|, i requires 0 <= i < |datas| => Event("message", datas[i]))
  }

  lemma {:induction false} FramesRoundTrip(datas: seq<string>)
    requires forall d :: d in datas ==> OneLine(d)
    ensures Process(Lines(Frames(datas)), "", "") == Events(datas)
  {
    if datas == [] {
      assert Lines("") == [];
    } else {
      FrameIsEvent(datas[0], Frames(datas[1..]));
      FramesRoundTrip(datas[1..]);
      assert Events(datas) == [Event("message", datas[0])] + Events(datas[1..]);
    }
  }

  /** Parsed data never contains a carriage return. */
  lemma {:induction false} DataHasNoReturn(lines: seq<string>, kind: string, data: string)
    requires forall l :: l in lines ==> '\r' !in l
    requires '\r' !in data
    ensures forall e :: e in Process(lines, kind, data) ==> '\r' !in e.data
    decreases |lines|
  {
    if lines != [] {
      var l := lines[0];
      assert forall x :: x in lines[1..] ==> x in lines;
      if l == "" {
        DataHasNoReturn(lines[1..], "", "");
      } else {
        assert forall c :: c in FieldValue(l) ==> c in l;
        DataHasNoReturn(lines[1..], kind, data);
        DataHasNoReturn(lines[1..], FieldValue(l), data);
        DataHasNoReturn(lines[1..], kind, data + FieldValue(l) + "\n");
      }
    }
  }

  lemma ConcatOneLine(a: string, b: string, c: string)
    requires OneLine(a) && OneLine(b) && OneLine(c)
    ensures OneLine(a + b + c)
  {}

  lemma NumberOneLine(n: int)
    ensures OneLine(IntText(n))
  {
    assert forall c :: c in NatText(if n < 0 then -n else n) ==> IsDigit(c);
  }

  lemma GreetingOneLine(jobID: int)
    ensures OneLine(Greeting(jobID))
  {
    NumberOneLine(jobID);
    ConcatOneLine(Opening(), Subject(), IntText(jobID));
    ConcatOneLine(Opening() + Subject() + IntText(jobID), Closing(), "");
    assert Greeting(jobID) + "" == Greeting(jobID);
  }

  lemma HtmlOneLine(msg: string)
    ensures OneLine(Html(LineClass(msg), msg)) <==> OneLine(msg)
  {
    var h, cls := Html(LineClass(msg), msg), LineClass(msg);
    var front := "<div class=\"log-line " + cls + "\">";
    assert h == front + msg + "</div>";
    assert OneLine(cls);
    assert OneLine(front);
  }

  lemma NotBom(datas: seq<string>)
    requires datas != []
    ensures Frames(datas)[0] == 'e'
  {}

  /** For newline-free messages the browser receives the connection event and then exactly
      the messages, in order, each with its class, if and only if no message contains a
      carriage return. */
  lemma RoundTripIff(jobID: int, msgs: seq<string>)
    requires forall m :: m in msgs ==> '\n' !in m
    ensures Parse(Frames(Payloads(jobID, msgs))) == Events(Payloads(jobID, msgs))
       <==> forall m :: m in msgs ==> '\r' !in m
  {
    var datas := Payloads(jobID, msgs);
    var s := Frames(datas);
    NotBom(datas);
    assert Parse(s) == Process(Lines(s), "", "");
    GreetingOneLine(jobID);
    if forall m :: m in msgs ==> '\r' !in m {
      forall i | 0 <= i < |datas| ensures OneLine(datas[i]) { if i > 0 { HtmlOneLine(msgs[i - 1]); } }
      FramesRoundTrip(datas);
    } else {
      var i :| 0 <= i < |msgs| && '\r' in msgs[i];
      HtmlOneLine(msgs[i]);
      DataHasNoReturn(Lines(s), "", "");
      if Parse(s) == Events(datas) { ReturnSurvives(s, datas, i, msgs[i]); }
    }
  }

  lemma ReturnSurvives(s: string, datas: seq<string>, i: nat, msg: string)
    requires i + 1 < |datas| && datas[i + 1] == Html(LineClass(msg), msg) && '\r' in msg
    requires Parse(s) == Events(datas)
    ensures exists e :: e in Parse(s) && '\r' in e.data
  {
    var e := Event("message", datas[i + 1]);
    assert Events(datas)[i + 1] == e;
    var front := "<div class=\"log-line " + LineClass(msg) + "\">";
    assert e.data == front + msg + "</div>";
    var k :| 0 <= k < |msg| && msg[k] == '\r';
    assert e.data[|front| + k] == '\r';
  }

  // ---------------------------------------------------------------- the message in the data

  function Strip(data: string, cls: string): Option<string> {
    var front, back := "<div class=\"log-line " + cls + "\">", "</div>";
    if |front| + |back| <= |data| && front <= data && data[|data| - |back|..] == back
    then Some(data[|front|..|data| - |back|]) else None
  }

  /** The class and the message of a log line are recovered from its data. */
  lemma HtmlDecodes(cls: string, msg: string)
    requires cls in {"log-info", "log-error", "log-success", "log-warning"}
    ensures Strip(Html(cls, msg), cls) == Some(msg)
    ensures forall other :: other in {"log-info", "log-error", "log-success", "log-warning"} && other != cls ==>
      Strip(Html(cls, msg), other) == None
  {
    var front, back := "<div class=\"log-line " + cls + "\">", "</div>";
    var h := Html(cls, msg);
    assert h == front + msg + back;
    assert h[|front|..|h| - |back|] == msg;
    forall other | other in {"log-info", "log-error", "log-success", "log-warning"} && other != cls
      ensures Strip(h, other) == None
    {
      var n := |"<div class=\"log-line "|;
      assert h[n + 4] == front[n + 4] == cls[4];
      assert ("<div class=\"log-line " + other + "\">")[n + 4] == other[4];
    }
  }

  /** Every message the log writer broadcasts is newline-free, so the hypothesis of
      `RoundTripIff` holds for every connection. */
  lemma WriterMessagesNewlineFree(p: string)
    ensures forall m :: m in LogWriter.Messages(p) ==> '\n' !in m
  {}

  // ---------------------------------------------------------------- the path

  /** The job id in the request path; 0 stands for an invalid one. */
  function JobOfPath(path: string): int {
    var parts := Split(TrimChar(path, '/'), '/');
    if |parts| >= 3 && parts[0] == "jobs" && parts[2] == "logs" && ParseInt64(parts[1]).Some?
    then ParseInt64(parts[1]).value else 0
  }

  lemma NoSlash(n: int)
    ensures '/' !in IntText(n)
  {
    assert forall c :: c in NatText(if n < 0 then -n else n) ==> IsDigit(c);
  }

  lemma SplitFour(a: string, b: string, c: string, d: string, sep: char)
    requires sep !in a && sep !in b && sep !in c && sep !in d
    ensures Split(a + [sep] + (b + [sep] + (c + [sep] + d)), sep) == [a, b, c, d]
  {
    SplitHead(a, b + [sep] + (c + [sep] + d), sep);
    SplitHead(b, c + [sep] + d, sep);
    SplitHead(c, d, sep);
    SplitNone(d, sep);
  }

  lemma TrimFront(c: char, s: string)
    requires s != "" && s[0] != c && s[|s| - 1] != c
    ensures TrimChar([c] + s, c) == s
  {
    assert ([c] + s)[1..] == s;
  }

  /** The address the log window connects to leads back to its job. */
  lemma PathRoundTrip(id: int)
    requires MIN_INT64 <= id <= MAX_INT64
    ensures JobOfPath("/jobs/" + IntText(id) + "/logs/stream") == id
  {
    var t := IntText(id);
    var inner := "jobs" + ['/'] + (t + ['/'] + ("logs" + ['/'] + "stream"));
    assert "/jobs/" + t + "/logs/stream" == ['/'] + inner;
    TrimFront('/', inner);
    NoSlash(id);
    SplitFour("jobs", t, "logs", "stream", '/');
    ParseIntText(id);
  }
}
