/** Archive names: `sanitizeFilename` and the file name format of `RunBackup`. */
module Archive {
  import opened Values
  import opened GoText

  // ---------------------------------------------------------------- sanitizing

  /** The class `[a-zA-Z0-9_-]`. */
  predicate IsSafe(c: char) {
    'a' <= c <= 'z' || 'A' <= c <= 'Z' || '0' <= c <= '9' || c == '_' || c == '-'
  }

  predicate AllSafe(s: string) {
    forall i :: 0 <= i < |s| ==> IsSafe(s[i])
  }

  function SkipUnsafe(s: string): (r: string)
    ensures |r| <= |s| && (s != [] && !IsSafe(s[0]) ==> |r| < |s|)
  {
    if s == [] || IsSafe(s[0]) then s else SkipUnsafe(s[1..])
  }

  /** Every maximal run of other characters becomes one underscore. */
  function ReplaceRuns(s: string): (r: string)
    ensures AllSafe(r)
    decreases |s|
  {
    if s == [] then []
    else if IsSafe(s[0]) then [s[0]] + ReplaceRuns(s[1..])
    else ['_'] + ReplaceRuns(SkipUnsafe(s))
  }

  function SanitizeFilename(s: string): string {
    TrimChar(ReplaceRuns(s), '_')
  }

  predicate NoEdge(s: string) {
    s != [] ==> s[0] != '_' && s[|s| - 1] != '_'
  }

  lemma {:induction false} SafeUnchanged(s: string)
    requires AllSafe(s)
    ensures ReplaceRuns(s) == s
  {
    if s != [] { SafeUnchanged(s[1..]); }
  }

  lemma {:induction false} TrimmedSafe(s: string)
    requires AllSafe(s)
    ensures AllSafe(TrimChar(s, '_')) && NoEdge(TrimChar(s, '_'))
  {
    if s != [] && s[0] == '_' { TrimmedSafe(s[1..]); }
    else if s != [] && s[|s| - 1] == '_' { TrimmedSafe(s[..|s| - 1]); }
  }

  /** A sanitized name has only safe characters and no underscore at either end. */
  lemma SanitizedIsSafe(s: string)
    ensures AllSafe(SanitizeFilename(s)) && NoEdge(SanitizeFilename(s))
  {
    TrimmedSafe(ReplaceRuns(s));
  }

  /** Exactly the safe names without edge underscores are left alone. */
  lemma UnchangedIff(s: string)
    ensures SanitizeFilename(s) == s <==> AllSafe(s) && NoEdge(s)
  {
    SanitizedIsSafe(s);
    if AllSafe(s) && NoEdge(s) { SafeUnchanged(s); }
  }

  lemma SanitizeTwice(s: string)
    ensures SanitizeFilename(SanitizeFilename(s)) == SanitizeFilename(s)
  {
    SanitizedIsSafe(s);
    UnchangedIff(SanitizeFilename(s));
  }

  // ---------------------------------------------------------------- time stamps

  /** Wall-clock time to the second. */
  datatype Clock = Clock(year: nat, month: nat, day: nat, hour: nat, minute: nat, second: nat) {
    /** Four-digit year and two-digit fields. */
    predicate Valid() {
      year < 10_000 && month < 100 && day < 100 && hour < 100 && minute < 100 && second < 100
    }
  }

  function Pad2(n: nat): (s: string)
    requires n < 100
    ensures |s| == 2 && IsDigit(s[0]) && IsDigit(s[1])
  {
    [DigitChar(n / 10), DigitChar(n % 10)]
  }

  function Pad4(n: nat): (s: string)
    requires n < 10_000
    ensures |s| == 4
  {
    Pad2(n / 100) + Pad2(n % 100)
  }

  function Value2(s: string): nat
    requires |s| == 2
  {
    if IsDigit(s[0]) && IsDigit(s[1]) then 10 * DigitValue(s[0]) + DigitValue(s[1]) else 0
  }

  lemma ValuePad2(n: nat)
    requires n < 100
    ensures Value2(Pad2(n)) == n
  {}

  const STAMP: nat := 19

  /** `Format("2006-01-02_15-04-05")`. */
  function Timestamp(c: Clock): (s: string)
    requires c.Valid()
    ensures |s| == STAMP
  {
    Pad4(c.year) + "-" + Pad2(c.month) + "-" + Pad2(c.day) + "_" + Pad2(c.hour) + "-" + Pad2(c.minute) + "-"
      + Pad2(c.second)
  }

  function ReadStamp(s: string): Clock
    requires |s| == STAMP
  {
    Clock(100 * Value2(s[0..2]) + Value2(s[2..4]), Value2(s[5..7]), Value2(s[8..10]),
          Value2(s[11..13]), Value2(s[14..16]), Value2(s[17..19]))
  }

  lemma StampFields(c: Clock)
    requires c.Valid()
    ensures var s := Timestamp(c);
      && s[0..2] == Pad2(c.year / 100) && s[2..4] == Pad2(c.year % 100)
      && s[5..7] == Pad2(c.month) && s[8..10] == Pad2(c.day)
      && s[11..13] == Pad2(c.hour) && s[14..16] == Pad2(c.minute) && s[17..19] == Pad2(c.second)
  {
    var date := Pad4(c.year) + "-" + Pad2(c.month) + "-" + Pad2(c.day);
    var time := Pad2(c.hour) + "-" + Pad2(c.minute) + "-" + Pad2(c.second);
    assert Timestamp(c) == date + "_" + time;
    assert Pad4(c.year)[0..2] == Pad2(c.year / 100) && Pad4(c.year)[2..4] == Pad2(c.year % 100);
    hide *;
    ThreeFields(Pad4(c.year), Pad2(c.month), Pad2(c.day));
    ThreeFields(Pad2(c.hour), Pad2(c.minute), Pad2(c.second));
    DateAndTime(date, time);
  }

  /** Three fields with separators, the first of two or four characters. */
  lemma ThreeFields(a: string, b: string, c: string)
    requires |b| == |c| == 2
    ensures var s, n := a + "-" + b + "-" + c, |a|;
      |s| == n + 6 && s[0..n] == a && s[n + 1..n + 3] == b && s[n + 4..n + 6] == c
  {
    var s, n := a + "-" + b + "-" + c, |a|;
    assert s[n + 1..n + 3] == b;
    assert s[n + 4..n + 6] == c;
  }

  /** The fields of a stamp are those of its date and of its time. */
  lemma DateAndTime(date: string, time: string)
    requires |date| == 10 && |time| == 8
    ensures var s := date + "_" + time;
      && s[0..2] == date[0..4][0..2] && s[2..4] == date[0..4][2..4] && s[5..7] == date[5..7] && s[8..10] == date[8..10]
      && s[11..13] == time[0..2] && s[14..16] == time[3..5] && s[17..19] == time[6..8]
  {
    var s := date + "_" + time;
    assert s[..10] == date && s[11..] == time;
    assert s[0..2] == date[0..4][0..2] && s[2..4] == date[0..4][2..4];
    assert s[5..7] == date[5..7] && s[8..10] == date[8..10];
    assert s[11..13] == time[0..2] && s[14..16] == time[3..5] && s[17..19] == time[6..8];
  }

  lemma ReadStampBack(c: Clock)
    requires c.Valid()
    ensures ReadStamp(Timestamp(c)) == c
  {
    StampFields(c);
    ValuePad2(c.year / 100);
    ValuePad2(c.year % 100);
    ValuePad2(c.month);
    ValuePad2(c.day);
    ValuePad2(c.hour);
    ValuePad2(c.minute);
    ValuePad2(c.second);
  }

  // ---------------------------------------------------------------- archive names

  function Extension(dbType: string): string {
    if dbType == "sqlite" then ".sqlite.gz" else ".sql.gz"
  }

  function ArchiveName(name: string, dbType: string, c: Clock): string
    requires c.Valid()
  {
    SanitizeFilename(name) + "_" + dbType + "_" + Timestamp(c) + Extension(dbType)
  }

  datatype Decoded = Decoded(name: string, dbType: string, clock: Clock)

  predicate EndsWith(s: string, t: string) {
    |t| <= |s| && s[|s| - |t|..] == t
  }

  function Chop(s: string, n: nat): string
    requires n <= |s|
  {
    s[..|s| - n]
  }

  function DecodeAs(f: string, dbType: string): Option<Decoded> {
    var ext, mark := Extension(dbType), "_" + dbType + "_";
    if !EndsWith(f, ext) || |f| < |ext| + STAMP then None
    else
      var body := Chop(f, |ext|);
      var front := Chop(body, STAMP);
      if EndsWith(front, mark) then Some(Decoded(Chop(front, |mark|), dbType, ReadStamp(body[|body| - STAMP..])))
      else None
  }

  function Decode(f: string): Option<Decoded> {
    if EndsWith(f, ".sqlite.gz") then DecodeAs(f, "sqlite") else DecodeAs(f, "postgres")
  }

  lemma SuffixOf(a: string, b: string)
    ensures EndsWith(a + b, b) && Chop(a + b, |b|) == a
  {}

  lemma DecodeParts(safe: string, dbType: string, ts: string, f: string)
    requires |ts| == STAMP && f == safe + ("_" + dbType + "_") + ts + Extension(dbType)
    ensures DecodeAs(f, dbType) == Some(Decoded(safe, dbType, ReadStamp(ts)))
  {
    hide Extension, ReadStamp;
    var ext, mark := Extension(dbType), "_" + dbType + "_";
    SuffixOf(safe + mark + ts, ext);
    SuffixOf(safe + mark, ts);
    SuffixOf(safe, mark);
  }

  lemma Regroup(a: string, b: string, ts: string, ext: string)
    ensures a + "_" + b + "_" + ts + ext == a + ("_" + b + "_") + ts + ext
  {}

  lemma DecodeAsBack(name: string, dbType: string, c: Clock)
    requires c.Valid()
    ensures DecodeAs(ArchiveName(name, dbType, c), dbType) == Some(Decoded(SanitizeFilename(name), dbType, c))
  {
    var safe, ts := SanitizeFilename(name), Timestamp(c);
    hide SanitizeFilename, Extension, Timestamp, ReadStamp, DecodeAs;
    Regroup(safe, dbType, ts, Extension(dbType));
    DecodeParts(safe, dbType, ts, ArchiveName(name, dbType, c));
    ReadStampBack(c);
  }

  /** For both database types and four-digit years, the sanitized name, the type and the time
      are recovered from the archive name. */
  lemma DecodeBack(name: string, dbType: string, c: Clock)
    requires c.Valid() && (dbType == "postgres" || dbType == "sqlite")
    ensures Decode(ArchiveName(name, dbType, c)) == Some(Decoded(SanitizeFilename(name), dbType, c))
  {
    DecodeAsBack(name, dbType, c);
    var f, front := ArchiveName(name, dbType, c), SanitizeFilename(name) + "_" + dbType + "_" + Timestamp(c);
    SuffixOf(front, Extension(dbType));
    if dbType == "postgres" {
      assert f[|f| - 4] == 'l' && ".sqlite.gz"[6] == 'e';
    }
  }

  /** Two jobs get the same archive name at the same second exactly when their sanitized
      names and types agree. */
  lemma NamesCollideIff(a: string, b: string, s: string, t: string, c: Clock, d: Clock)
    requires c.Valid() && d.Valid()
    requires (s == "postgres" || s == "sqlite") && (t == "postgres" || t == "sqlite")
    ensures ArchiveName(a, s, c) == ArchiveName(b, t, d) <==>
      SanitizeFilename(a) == SanitizeFilename(b) && s == t && c == d
  {
    DecodeBack(a, s, c);
    DecodeBack(b, t, d);
  }

  /** Job names that differ can be sanitized to the same name. */
  lemma DifferentNamesCollide()
    ensures SanitizeFilename("a b") == SanitizeFilename("a/b") == "a_b"
  {
    forall c: char | !IsSafe(c) ensures SanitizeFilename(['a', c, 'b']) == "a_b" {
      var s := ['a', c, 'b'];
      assert s[1..] == [c, 'b'] && [c, 'b'][1..] == ['b'] && ['b'][1..] == [];
      assert SkipUnsafe([c, 'b']) == ['b'];
      assert ReplaceRuns(['b']) == ['b'];
      assert ReplaceRuns([c, 'b']) == ['_', 'b'];
      assert ReplaceRuns(s) == ['a', '_', 'b'];
    }
    assert "a b" == ['a', ' ', 'b'] && "a/b" == ['a', '/', 'b'];
  }

  // ---------------------------------------------------------------- alphabetical is chronological

  /** Go's `<` on strings. */
  predicate Less(a: string, b: string) {
    b != [] && (a == [] || a[0] < b[0] || (a[0] == b[0] && Less(a[1..], b[1..])))
  }

  lemma {:induction false} LessIrreflexive(a: string)
    ensures !Less(a, a)
  {
    if a != [] { LessIrreflexive(a[1..]); }
  }

  /** Strings that start with pieces of equal length are compared piece by piece. */
  lemma {:induction false} LessPieces(a: string, b: string, x: string, y: string)
    requires |a| == |b|
    ensures Less(a + x, b + y) <==> Less(a, b) || (a == b && Less(x, y))
  {
    if a == [] {
      assert a + x == x && b + y == y;
    } else {
      assert (a + x)[1..] == a[1..] + x && (b + y)[1..] == b[1..] + y;
      LessPieces(a[1..], b[1..], x, y);
      assert a == [a[0]] + a[1..] && b == [b[0]] + b[1..];
    }
  }

  lemma LessPrefix(p: string, x: string, y: string)
    ensures Less(p + x, p + y) <==> Less(x, y)
  {
    LessPieces(p, p, x, y);
    LessIrreflexive(p);
  }

  lemma Pad2Order(m: nat, n: nat)
    requires m < 100 && n < 100
    ensures Less(Pad2(m), Pad2(n)) <==> m < n
    ensures Pad2(m) == Pad2(n) <==> m == n
  {
    ValuePad2(m);
    ValuePad2(n);
    var a, b := Pad2(m), Pad2(n);
    assert a[1..][1..] == [] && b[1..][1..] == [];
    assert !Less([], []);
  }

  /** The fields in order of weight. */
  function Fields(c: Clock): seq<nat>
    requires c.Valid()
  {
    [c.year / 100, c.year % 100, c.month, c.day, c.hour, c.minute, c.second]
  }

  ghost predicate Smaller(a: seq<nat>, b: seq<nat>)
    requires |a| == |b|
  {
    a != [] && (a[0] < b[0] || (a[0] == b[0] && Smaller(a[1..], b[1..])))
  }

  /** Chronological order of wall-clock times. */
  ghost predicate Before(c: Clock, d: Clock) {
    || c.year < d.year
    || (c.year == d.year && (|| c.month < d.month
    || (c.month == d.month && (|| c.day < d.day
    || (c.day == d.day && (|| c.hour < d.hour
    || (c.hour == d.hour && (|| c.minute < d.minute
    || (c.minute == d.minute && c.second < d.second)))))))))
  }

  /** Two-digit fields joined by separators. */
  function Render(fields: seq<nat>, seps: seq<string>): string
    requires |fields| == |seps| && forall i :: 0 <= i < |fields| ==> fields[i] < 100
  {
    if fields == [] then "" else Pad2(fields[0]) + (seps[0] + Render(fields[1..], seps[1..]))
  }

  lemma {:induction false} RenderOrder(a: seq<nat>, b: seq<nat>, seps: seq<string>)
    requires |a| == |b| == |seps|
    requires forall i :: 0 <= i < |a| ==> a[i] < 100 && b[i] < 100
    ensures Less(Render(a, seps), Render(b, seps)) <==> Smaller(a, b)
  {
    if a != [] {
      RenderOrder(a[1..], b[1..], seps[1..]);
      LessPrefix(seps[0], Render(a[1..], seps[1..]), Render(b[1..], seps[1..]));
      LessPieces(Pad2(a[0]), Pad2(b[0]), seps[0] + Render(a[1..], seps[1..]), seps[0] + Render(b[1..], seps[1..]));
      Pad2Order(a[0], b[0]);
    }
  }

  const SEPS: seq<string> := ["", "-", "-", "_", "-", "-", ""]

  lemma RenderStep(f: seq<nat>, seps: seq<string>, k: nat)
    requires |f| == |seps| && k < |f| && forall i :: 0 <= i < |f| ==> f[i] < 100
    ensures Render(f[k..], seps[k..]) == Pad2(f[k]) + (seps[k] + Render(f[k + 1..], seps[k + 1..]))
  {
    assert f[k..][1..] == f[k + 1..] && seps[k..][1..] == seps[k + 1..];
  }

  lemma ClockIsRender(c: Clock)
    requires c.Valid()
    ensures Render(Fields(c)[3..], SEPS[3..]) ==
      Pad2(c.day) + ("_" + (Pad2(c.hour) + ("-" + (Pad2(c.minute) + ("-" + (Pad2(c.second) + ("" + "")))))))
  {
    var f := Fields(c);
    RenderStep(f, SEPS, 3);
    RenderStep(f, SEPS, 4);
    RenderStep(f, SEPS, 5);
    RenderStep(f, SEPS, 6);
    assert Render(f[7..], SEPS[7..]) == "";
  }

  lemma DateIsRender(c: Clock)
    requires c.Valid()
    ensures Render(Fields(c), SEPS) ==
      Pad2(c.year / 100) + ("" + (Pad2(c.year % 100)
        + ("-" + (Pad2(c.month) + ("-" + Render(Fields(c)[3..], SEPS[3..]))))))
  {
    var f := Fields(c);
    RenderStep(f, SEPS, 0);
    RenderStep(f, SEPS, 1);
    RenderStep(f, SEPS, 2);
    assert f[0..] == f && SEPS[0..] == SEPS;
  }

  lemma StampIsRender(c: Clock)
    requires c.Valid()
    ensures Timestamp(c) == Render(Fields(c), SEPS)
  {
    ClockIsRender(c);
    DateIsRender(c);
  }

  lemma SmallerIsBefore(c: Clock, d: Clock)
    requires c.Valid() && d.Valid()
    ensures Smaller(Fields(c), Fields(d)) <==> Before(c, d)
  {
    var a, b := Fields(c), Fields(d);
    assert Smaller(a[6..], b[6..]) <==> c.second < d.second;
    assert a[5..][1..] == a[6..] && b[5..][1..] == b[6..];
    assert a[4..][1..] == a[5..] && b[4..][1..] == b[5..];
    assert a[3..][1..] == a[4..] && b[3..][1..] == b[4..];
    assert a[2..][1..] == a[3..] && b[2..][1..] == b[3..];
    assert a[1..][1..] == a[2..] && b[1..][1..] == b[2..];
    assert Smaller(a[5..], b[5..]) <==> c.minute < d.minute || (c.minute == d.minute && c.second < d.second);
    assert Smaller(a[3..], b[3..]) <==> c.day < d.day || (c.day == d.day && Smaller(a[4..], b[4..]));
    assert Smaller(a[1..], b[1..]) <==>
      c.year % 100 < d.year % 100 || (c.year % 100 == d.year % 100 && Smaller(a[2..], b[2..]));
  }

  /** With name and type fixed, the alphabetical order of archive names is the chronological
      order of their wall-clock times. */
  lemma NameOrderIsTimeOrder(name: string, dbType: string, c: Clock, d: Clock)
    requires c.Valid() && d.Valid()
    ensures Less(ArchiveName(name, dbType, c), ArchiveName(name, dbType, d)) <==> Before(c, d)
  {
    var front, ext := SanitizeFilename(name) + "_" + dbType + "_", Extension(dbType);
    assert ArchiveName(name, dbType, c) == front + (Timestamp(c) + ext);
    assert ArchiveName(name, dbType, d) == front + (Timestamp(d) + ext);
    LessPrefix(front, Timestamp(c) + ext, Timestamp(d) + ext);
    LessPieces(Timestamp(c), Timestamp(d), ext, ext);
    LessIrreflexive(ext);
    StampIsRender(c);
    StampIsRender(d);
    RenderOrder(Fields(c), Fields(d), SEPS);
    SmallerIsBefore(c, d);
  }
}
