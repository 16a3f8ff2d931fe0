/** The session store: logins and logouts, answers that read the map under one lock, decide,
    and delete under another, and a periodic cleanup.  Instants are nanoseconds. */
module Sessions {
  import opened Values

  const WEEK: int := 7 * 24 * 3600 * 1_000_000_000

  // ---------------------------------------------------------------- the plain log

  /** What a session store is about: who logged in when, and who logged out. */
  datatype Entry = In(token: string, at: int) | Out(token: string)

  /** The login that is in force for the token at the end of the log. */
  function LoginOf(log: seq<Entry>, token: string): Option<int> {
    if log == [] then None
    else
      var e := log[|log| - 1];
      if e.token != token then LoginOf(log[..|log| - 1], token)
      else if e.In? then Some(e.at)
      else None
  }

  /** The token is good at `now` as far as the log goes. */
  predicate Good(log: seq<Entry>, token: string, now: int) {
    var login := LoginOf(log, token);
    login.Some? && now <= login.value + WEEK
  }

  // ---------------------------------------------------------------- the store

  /** A request being authenticated: it has read the map; it has found its session expired
      and is about to delete it; it is answered.  History: `mark` is the length of the log
      when it read the map, and `now` the instant it compared with. */
  datatype Thread =
    | Looked(token: string, found: Option<int>, mark: nat)
    | Stale(token: string, exp: int, mark: nat, now: int)
    | Answered(token: string, mark: nat, now: int, ok: bool)

  /** History: `log` is the plain log, `clock` the latest instant read. */
  datatype State = State(sessions: map<string, int>, threads: seq<Thread>, log: seq<Entry>, clock: int)

  datatype Event =
    | Login(token: string, now: int)
    | Logout(token: string)
    | Lookup(token: string)
    | Decide(k: nat, now: int)
    | Drop(k: nat)
    | Cleanup(now: int)

  const INIT: State := State(map[], [], [], 0)

  function Find(sessions: map<string, int>, token: string): Option<int> {
    if token in sessions then Some(sessions[token]) else None
  }

  function Cleaned(sessions: map<string, int>, now: int): map<string, int> {
    map token | token in sessions && now <= sessions[token] :: sessions[token]
  }

  function Decided(t: Thread, now: int): Thread
    requires t.Looked?
  {
    if t.found.None? then Answered(t.token, t.mark, now, false)
    else if now > t.found.value then Stale(t.token, t.found.value, t.mark, now)
    else Answered(t.token, t.mark, now, true)
  }

  /** One event; an event that is not possible in `s` leaves it unchanged. */
  function Step(s: State, e: Event): State {
    match e
    case Login(token, now) =>
      State(s.sessions[token := now + WEEK], s.threads, s.log + [In(token, now)], now)
    case Logout(token) => s.(sessions := s.sessions - {token}, log := s.log + [Out(token)])
    case Lookup(token) => s.(threads := s.threads + [Looked(token, Find(s.sessions, token), |s.log|)])
    case Decide(k, now) =>
      if k < |s.threads| && s.threads[k].Looked?
      then s.(threads := s.threads[k := Decided(s.threads[k], now)], clock := now) else s
    case Drop(k) =>
      if k < |s.threads| && s.threads[k].Stale?
      then
        var t := s.threads[k];
        s.(sessions := s.sessions - {t.token}, threads := s.threads[k := Answered(t.token, t.mark, t.now, false)])
      else s
    case Cleanup(now) => s.(sessions := Cleaned(s.sessions, now), clock := now)
  }

  function Exec(es: seq<Event>): State {
    if es == [] then INIT else Step(Exec(es[..|es| - 1]), es[|es| - 1])
  }

  // ---------------------------------------------------------------- nobody is let in wrongly

  /** What the map holds is what the log says; the converse needs more. */
  ghost predicate Backed(s: State) {
    forall token :: token in s.sessions ==> LoginOf(s.log, token) == Some(s.sessions[token] - WEEK)
  }

  ghost predicate ThreadBacked(t: Thread, log: seq<Entry>) {
    && t.mark <= |log|
    && match t
       case Looked(token, found, mark) => found.Some? ==> LoginOf(log[..mark], token) == Some(found.value - WEEK)
       case Stale(token, exp, mark, now) => now > exp && LoginOf(log[..mark], token) == Some(exp - WEEK)
       case Answered(token, mark, now, ok) => ok ==> Good(log[..mark], token, now)
  }

  ghost predicate AllBacked(threads: seq<Thread>, log: seq<Entry>) {
    forall k :: 0 <= k < |threads| ==> ThreadBacked(threads[k], log)
  }

  lemma LoginOfSnoc(log: seq<Entry>, e: Entry, token: string)
    ensures LoginOf(log + [e], token) ==
      if e.token != token then LoginOf(log, token) else if e.In? then Some(e.at) else None
  {
    assert (log + [e])[..|log|] == log;
  }

  lemma BackedLater(threads: seq<Thread>, log: seq<Entry>, e: Entry)
    requires AllBacked(threads, log)
    ensures AllBacked(threads, log + [e])
  {
    forall k | 0 <= k < |threads| ensures ThreadBacked(threads[k], log + [e]) {
      assert ThreadBacked(threads[k], log);
      assert (log + [e])[..threads[k].mark] == log[..threads[k].mark];
    }
  }

  lemma BackedUpdate(threads: seq<Thread>, log: seq<Entry>, k: nat, t: Thread)
    requires AllBacked(threads, log) && k < |threads| && ThreadBacked(t, log)
    ensures AllBacked(threads[k := t], log)
  {}

  lemma BackedSnoc(threads: seq<Thread>, log: seq<Entry>, t: Thread)
    requires AllBacked(threads, log) && ThreadBacked(t, log)
    ensures AllBacked(threads + [t], log)
  {}

  lemma StepBacked(s: State, e: Event)
    requires Backed(s)
    ensures Backed(Step(s, e))
  {
    hide LoginOf;
    var t := Step(s, e);
    if t.log != s.log {
      var last := t.log[|s.log|];
      forall token ensures LoginOf(t.log, token) ==
        if last.token != token then LoginOf(s.log, token) else if last.In? then Some(last.at) else None
      {
        LoginOfSnoc(s.log, last, token);
      }
    }
  }

  lemma StepThreadsBacked(s: State, e: Event)
    requires Backed(s) && AllBacked(s.threads, s.log)
    ensures AllBacked(Step(s, e).threads, Step(s, e).log)
  {
    var t := Step(s, e);
    hide LoginOf, AllBacked;
    match e
    case Login(token, now) => BackedLater(s.threads, s.log, In(token, now));
    case Logout(token) => BackedLater(s.threads, s.log, Out(token));
    case Lookup(token) =>
      assert s.log[..|s.log|] == s.log;
      BackedSnoc(s.threads, s.log, t.threads[|s.threads|]);
    case Decide(k, now) =>
      if k < |s.threads| && s.threads[k].Looked? {
        BackedAt(s.threads, s.log, k);
        BackedUpdate(s.threads, s.log, k, t.threads[k]);
      }
    case Drop(k) =>
      if k < |s.threads| && s.threads[k].Stale? {
        BackedAt(s.threads, s.log, k);
        BackedUpdate(s.threads, s.log, k, t.threads[k]);
      }
    case Cleanup(_) =>
  }

  lemma BackedAt(threads: seq<Thread>, log: seq<Entry>, k: nat)
    requires AllBacked(threads, log) && k < |threads|
    ensures ThreadBacked(threads[k], log)
  {}

  lemma {:induction false} ExecBacked(es: seq<Event>)
    ensures Backed(Exec(es)) && AllBacked(Exec(es).threads, Exec(es).log)
  {
    if es != [] {
      hide Backed, AllBacked, Step;
      ExecBacked(es[..|es| - 1]);
      StepBacked(Exec(es[..|es| - 1]), es[|es| - 1]);
      StepThreadsBacked(Exec(es[..|es| - 1]), es[|es| - 1]);
    }
  }

  /** Whatever the clock does and however tokens are drawn, a request is let in only with a
      token that was logged in, not logged out, and at most seven days old. */
  lemma NobodyLetInWrongly(es: seq<Event>, k: nat)
    requires k < |Exec(es).threads| && Exec(es).threads[k].Answered? && Exec(es).threads[k].ok
    ensures var s, t := Exec(es), Exec(es).threads[k];
      t.mark <= |s.log| && Good(s.log[..t.mark], t.token, t.now)
  {
    hide Exec;
    ExecBacked(es);
    BackedAt(Exec(es).threads, Exec(es).log, k);
  }

  // ---------------------------------------------------------------- nobody is shut out wrongly

  predicate Used(log: seq<Entry>, token: string) {
    exists i :: 0 <= i < |log| && log[i].In? && log[i].token == token
  }

  /** The clock does not go back and a login draws a token that was never drawn before. */
  predicate Regular(s: State, e: Event) {
    match e
    case Login(token, now) => !Used(s.log, token) && now >= s.clock
    case Decide(_, now) => now >= s.clock
    case Cleanup(now) => now >= s.clock
    case _ => true
  }

  ghost predicate AlwaysRegular(es: seq<Event>) {
    forall n :: 0 <= n < |es| ==> Regular(Exec(es[..n]), es[n])
  }

  ghost predicate Unique(log: seq<Entry>) {
    forall i, j :: 0 <= i < j < |log| && log[i].In? && log[j].In? ==> log[i].token != log[j].token
  }

  /** A login missing from the map is past its week. */
  ghost predicate Complete(s: State) {
    forall token :: LoginOf(s.log, token).Some? && token !in s.sessions ==> s.clock > LoginOf(s.log, token).value + WEEK
  }

  ghost predicate ThreadComplete(t: Thread, log: seq<Entry>, clock: int) {
    && t.mark <= |log|
    && match t
       case Looked(token, found, mark) =>
         found.None? && LoginOf(log[..mark], token).Some? ==> clock > LoginOf(log[..mark], token).value + WEEK
       case Stale(token, exp, mark, now) => now <= clock
       case Answered(token, mark, now, ok) => !ok ==> !Good(log[..mark], token, now)
  }

  ghost predicate AllComplete(threads: seq<Thread>, log: seq<Entry>, clock: int) {
    forall k :: 0 <= k < |threads| ==> ThreadComplete(threads[k], log, clock)
  }

  lemma {:induction false} LoginIsLogged(log: seq<Entry>, token: string)
    requires LoginOf(log, token).Some?
    ensures In(token, LoginOf(log, token).value) in log
  {
    var n := |log| - 1;
    if log[n].token != token {
      LoginIsLogged(log[..n], token);
    } else {
      assert log[n] == In(token, LoginOf(log, token).value);
    }
  }

  /** With distinct tokens, a token has one login for good. */
  lemma OneLogin(log: seq<Entry>, mark: nat, token: string)
    requires Unique(log) && mark <= |log| && LoginOf(log, token).Some? && LoginOf(log[..mark], token).Some?
    ensures LoginOf(log, token) == LoginOf(log[..mark], token)
  {
    hide LoginOf;
    LoginIsLogged(log, token);
    LoginIsLogged(log[..mark], token);
    var i: nat :| i < |log| && log[i] == In(token, LoginOf(log, token).value);
    var j: nat :| j < mark && log[j] == In(token, LoginOf(log[..mark], token).value);
  }

  lemma CompleteLater(threads: seq<Thread>, log: seq<Entry>, e: Entry, clock: int, later: int)
    requires AllComplete(threads, log, clock) && clock <= later
    ensures AllComplete(threads, log + [e], later) && AllComplete(threads, log, later)
  {
    forall k | 0 <= k < |threads|
      ensures ThreadComplete(threads[k], log + [e], later) && ThreadComplete(threads[k], log, later)
    {
      assert ThreadComplete(threads[k], log, clock);
      assert (log + [e])[..threads[k].mark] == log[..threads[k].mark];
    }
  }

  lemma CompleteAt(threads: seq<Thread>, log: seq<Entry>, clock: int, k: nat)
    requires AllComplete(threads, log, clock) && k < |threads|
    ensures ThreadComplete(threads[k], log, clock)
  {}

  lemma CompleteUpdate(threads: seq<Thread>, log: seq<Entry>, clock: int, k: nat, t: Thread)
    requires AllComplete(threads, log, clock) && k < |threads| && ThreadComplete(t, log, clock)
    ensures AllComplete(threads[k := t], log, clock)
  {}

  lemma CompleteSnoc(threads: seq<Thread>, log: seq<Entry>, clock: int, t: Thread)
    requires AllComplete(threads, log, clock) && ThreadComplete(t, log, clock)
    ensures AllComplete(threads + [t], log, clock)
  {}

  lemma StepUnique(s: State, e: Event)
    requires Unique(s.log) && Regular(s, e)
    ensures Unique(Step(s, e).log)
  {}

  lemma StepComplete(s: State, e: Event)
    requires Backed(s) && AllBacked(s.threads, s.log) && Unique(s.log)
    requires Complete(s) && AllComplete(s.threads, s.log, s.clock) && Regular(s, e)
    ensures Complete(Step(s, e))
  {
    hide LoginOf, Unique, AllBacked, AllComplete;
    var t := Step(s, e);
    match e
    case Drop(k) =>
      if k < |s.threads| && s.threads[k].Stale? {
        var token := s.threads[k].token;
        BackedAt(s.threads, s.log, k);
        CompleteAt(s.threads, s.log, s.clock, k);
        if LoginOf(s.log, token).Some? { OneLogin(s.log, s.threads[k].mark, token); }
      }
    case Login(token, now) => forall x { LoginOfSnoc(s.log, In(token, now), x); }
    case Logout(token) => forall x { LoginOfSnoc(s.log, Out(token), x); }
    case Cleanup(now) => CleanupComplete(s, now);
    case _ =>
  }

  lemma CleanupComplete(s: State, now: int)
    requires Backed(s) && Complete(s) && now >= s.clock
    ensures Complete(Step(s, Cleanup(now)))
  {
    hide LoginOf;
    var t := Step(s, Cleanup(now));
    forall token | LoginOf(t.log, token).Some? && token !in t.sessions
      ensures t.clock > LoginOf(t.log, token).value + WEEK
    {
      if token in s.sessions { assert LoginOf(s.log, token) == Some(s.sessions[token] - WEEK); }
    }
  }

  lemma StepThreadsComplete(s: State, e: Event)
    requires AllBacked(s.threads, s.log)
    requires Complete(s) && AllComplete(s.threads, s.log, s.clock) && Regular(s, e)
    ensures AllComplete(Step(s, e).threads, Step(s, e).log, Step(s, e).clock)
  {
    hide LoginOf, AllBacked, AllComplete;
    var t := Step(s, e);
    match e
    case Login(token, now) => CompleteLater(s.threads, s.log, In(token, now), s.clock, now);
    case Logout(token) => CompleteLater(s.threads, s.log, Out(token), s.clock, s.clock);
    case Lookup(token) =>
      assert s.log[..|s.log|] == s.log;
      CompleteSnoc(s.threads, s.log, s.clock, t.threads[|s.threads|]);
    case Decide(k, now) =>
      if k < |s.threads| && s.threads[k].Looked? {
        CompleteLater(s.threads, s.log, Out(""), s.clock, now);
        CompleteAt(s.threads, s.log, now, k);
        CompleteAt(s.threads, s.log, s.clock, k);
        BackedAt(s.threads, s.log, k);
        CompleteUpdate(s.threads, s.log, now, k, t.threads[k]);
      }
    case Drop(k) =>
      if k < |s.threads| && s.threads[k].Stale? {
        BackedAt(s.threads, s.log, k);
        CompleteUpdate(s.threads, s.log, s.clock, k, t.threads[k]);
      }
    case Cleanup(now) => CompleteLater(s.threads, s.log, Out(""), s.clock, now);
  }

  lemma {:induction false} ExecComplete(es: seq<Event>)
    requires AlwaysRegular(es)
    ensures Unique(Exec(es).log) && Complete(Exec(es)) && AllComplete(Exec(es).threads, Exec(es).log, Exec(es).clock)
  {
    if es != [] {
      var before := es[..|es| - 1];
      assert AlwaysRegular(before) by {
        forall n | 0 <= n < |before| ensures Regular(Exec(before[..n]), before[n]) { assert before[..n] == es[..n]; }
      }
      assert Regular(Exec(es[..|es| - 1]), es[|es| - 1]);
      hide Backed, AllBacked, Complete, AllComplete, Unique, Step, Regular, AlwaysRegular;
      ExecComplete(before);
      ExecBacked(before);
      StepUnique(Exec(before), es[|es| - 1]);
      StepComplete(Exec(before), es[|es| - 1]);
      StepThreadsComplete(Exec(before), es[|es| - 1]);
    }
  }

  /** With unique tokens and a clock that does not go back, a request is let in exactly when
      its token was logged in and not logged out when the map was read, and at most seven days
      old when the clock was read: no cleanup and no lazy deletion, wherever it falls, ever
      changes an answer. */
  lemma AnswerIff(es: seq<Event>, k: nat)
    requires AlwaysRegular(es) && k < |Exec(es).threads| && Exec(es).threads[k].Answered?
    ensures var s, t := Exec(es), Exec(es).threads[k];
      t.mark <= |s.log| && (t.ok <==> Good(s.log[..t.mark], t.token, t.now))
  {
    hide Exec, AlwaysRegular;
    ExecComplete(es);
    CompleteAt(Exec(es).threads, Exec(es).log, Exec(es).clock, k);
    if Exec(es).threads[k].ok { NobodyLetInWrongly(es, k); }
  }

  /** A token that comes back between a request's decision and its deletion is deleted young:
      the answers are right only because tokens are never drawn twice. */
  lemma RedrawnTokenIsLost(s: State, k: nat, now: int)
    requires k < |s.threads| && s.threads[k].Stale?
    ensures var token := s.threads[k].token;
      var t := Step(Step(s, Login(token, now)), Drop(k));
      Good(t.log, token, now) && token !in t.sessions
  {
    LoginOfSnoc(s.log, In(s.threads[k].token, now), s.threads[k].token);
  }

  /** A cleanup shuts out a login for good exactly if it reads the clock after the login's
      week; should the clock then go back, the login is good again but not found. */
  lemma CleanupLosesIff(s: State, token: string, now: int, later: int)
    requires Backed(s) && token in s.sessions && later <= s.sessions[token]
    ensures var t := Step(s, Cleanup(now));
      Good(t.log, token, later) && (token !in t.sessions <==> now > LoginOf(s.log, token).value + WEEK)
  {}

  // ---------------------------------------------------------------- the object

  /** The answer to an undisturbed request and the map it leaves; `cookie` is `None` when the
      request has no session cookie. */
  function Authenticate(sessions: map<string, int>, cookie: Option<string>, now: int): (bool, map<string, int>) {
    if cookie.None? || cookie.value == "" || cookie.value !in sessions then (false, sessions)
    else if now > sessions[cookie.value] then (false, sessions - {cookie.value})
    else (true, sessions)
  }

  /** It is the three steps of a request taken together. */
  lemma AuthenticateIsThreeSteps(s: State, token: string, now: int)
    requires token != ""
    ensures var k := |s.threads|;
      var t := Step(Step(Step(s, Lookup(token)), Decide(k, now)), Drop(k));
      var (ok, sessions) := Authenticate(s.sessions, Some(token), now);
      t.sessions == sessions && t.threads[k] == Answered(token, |s.log|, now, ok)
  {
    var k := |s.threads|;
    var t1 := Step(s, Lookup(token));
    assert t1.threads[k] == Looked(token, Find(s.sessions, token), |s.log|);
    var t2 := Step(t1, Decide(k, now));
    assert t2.threads[k] == Decided(t1.threads[k], now) && t2.sessions == s.sessions;
  }

  class SessionManager {
    var sessions: map<string, int>

    constructor ()
      ensures sessions == map[]
    {
      sessions := map[];
    }

    method CreateSession(token: string, now: int)
      modifies this
      ensures sessions == old(sessions)[token := now + WEEK]
    {
      sessions := sessions[token := now + WEEK];
    }

    method InvalidateSession(cookie: Option<string>)
      modifies this
      ensures cookie.None? ==> sessions == old(sessions)
      ensures cookie.Some? ==> sessions == old(sessions) - {cookie.value}
    {
      if cookie.Some? { sessions := sessions - {cookie.value}; }
    }

    method IsAuthenticated(cookie: Option<string>, now: int) returns (ok: bool)
      modifies this
      ensures (ok, sessions) == Authenticate(old(sessions), cookie, now)
    {
      if cookie.None? || cookie.value == "" { return false; }
      if cookie.value !in sessions { return false; }
      var exp := sessions[cookie.value];
      if now > exp {
        sessions := sessions - {cookie.value};
        return false;
      }
      ok := true;
    }

    /** The loop visits the tokens in any order and deletes as it goes. */
    method CleanUp(now: int)
      modifies this
      ensures sessions == Cleaned(old(sessions), now)
    {
      var pending := sessions.Keys;
      while pending != {}
        invariant pending <= sessions.Keys <= old(sessions).Keys
        invariant forall token :: token in sessions ==> sessions[token] == old(sessions)[token]
        invariant forall token :: token in old(sessions) && token !in pending ==>
          (token in sessions <==> now <= old(sessions)[token])
      {
        var token :| token in pending;
        if now > sessions[token] { sessions := sessions - {token}; }
        pending := pending - {token};
      }
    }
  }
}
