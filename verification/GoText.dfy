/** The functions of Go's `strings` and `strconv` packages that the program uses, on
    strings of Unicode code points. */
module GoText {
  import opened Values

  // ---------------------------------------------------------------- splitting

  /** `strings.Split` at a one-character separator. */
  function Split(s: string, sep: char): (parts: seq<string>)
    ensures parts != []
    ensures forall i :: 0 <= i < |parts| ==> sep !in parts[i]
  {
    if s == [] then [[]]
    else
      var rest := Split(s[1..], sep);
      if s[0] == sep then [[]] + rest else [[s[0]] + rest[0]] + rest[1..]
  }

  function FirstLine(s: string): string { Split(s, '\n')[0] }

  function LastLine(s: string): string {
    var parts := Split(s, '\n');
    parts[|parts| - 1]
  }

  /** Two lists of parts joined end to end: the last of `a` and the first of `b` are glued. */
  function Glue(a: seq<string>, b: seq<string>): seq<string>
    requires a != [] && b != []
  {
    a[..|a| - 1] + [a[|a| - 1] + b[0]] + b[1..]
  }

  lemma GlueCons(h: string, a: seq<string>, b: seq<string>)
    requires a != [] && b != []
    ensures Glue([h] + a, b) == [h] + Glue(a, b)
  {
    assert ([h] + a)[..|a|] == [h] + a[..|a| - 1];
  }

  lemma GlueHead(c: char, a: seq<string>, b: seq<string>)
    requires a != [] && b != []
    ensures Glue([[c] + a[0]] + a[1..], b) == [[c] + Glue(a, b)[0]] + Glue(a, b)[1..]
  {
    var a' := [[c] + a[0]] + a[1..];
    if |a| == 1 {
      assert Glue(a, b)[0] == a[0] + b[0] && Glue(a, b)[1..] == b[1..];
      assert [c] + (a[0] + b[0]) == [c] + a[0] + b[0];
    } else {
      GlueCons([c] + a[0], a[1..], b);
      GlueCons(a[0], a[1..], b);
      assert [a[0]] + a[1..] == a;
    }
  }

  /** The parts of a concatenation. */
  lemma {:induction false} SplitConcat(p: string, q: string, sep: char)
    ensures Split(p + q, sep) == Glue(Split(p, sep), Split(q, sep))
  {
    if p == [] {
      assert p + q == q;
      assert [] + Split(q, sep)[0] == Split(q, sep)[0];
    } else {
      SplitConcat(p[1..], q, sep);
      assert (p + q)[1..] == p[1..] + q;
      if p[0] == sep {
        GlueCons([], Split(p[1..], sep), Split(q, sep));
      } else {
        GlueHead(p[0], Split(p[1..], sep), Split(q, sep));
      }
    }
  }

  lemma {:induction false} SplitNone(s: string, sep: char)
    requires sep !in s
    ensures Split(s, sep) == [s]
  {
    if s != [] {
      SplitNone(s[1..], sep);
      assert [s[0]] + s[1..] == s;
    }
  }

  /** Splitting at a separator that closes a separator-free head. */
  lemma SplitHead(head: string, rest: string, sep: char)
    requires sep !in head
    ensures Split(head + [sep] + rest, sep) == [head] + Split(rest, sep)
  {
    SplitNone(head, sep);
    SplitConcat(head, [sep] + rest, sep);
    assert ([sep] + rest)[1..] == rest;
    assert Split([sep] + rest, sep) == [[]] + Split(rest, sep);
    assert head + [sep] + rest == head + ([sep] + rest) && head + [] == head;
  }

  // ---------------------------------------------------------------- white space

  /** `unicode.IsSpace`. */
  predicate IsSpace(c: char) {
    var n := c as int;
    9 <= n <= 13 || n == 0x20 || n == 0x85 || n == 0xA0 || n == 0x1680 || 0x2000 <= n <= 0x200A
    || n == 0x2028 || n == 0x2029 || n == 0x202F || n == 0x205F || n == 0x3000
  }

  function TrimLeft(s: string): (r: string) {
    if s != [] && IsSpace(s[0]) then TrimLeft(s[1..]) else s
  }

  function TrimRight(s: string): (r: string) {
    if s != [] && IsSpace(s[|s| - 1]) then TrimRight(s[..|s| - 1]) else s
  }

  function TrimSpace(s: string): string {
    TrimRight(TrimLeft(s))
  }

  predicate Blank(s: string) {
    TrimSpace(s) == ""
  }

  /** A line is blank exactly when all its characters are white space. */
  lemma BlankIff(s: string)
    ensures Blank(s) <==> forall i :: 0 <= i < |s| ==> IsSpace(s[i])
  {
    TrimLeftEmpty(s);
    TrimRightEmpty(TrimLeft(s));
    TrimLeftHead(s);
  }

  lemma {:induction false} TrimLeftEmpty(s: string)
    ensures TrimLeft(s) == "" <==> forall i :: 0 <= i < |s| ==> IsSpace(s[i])
  {
    if s != [] {
      TrimLeftEmpty(s[1..]);
      assert forall i :: 0 < i < |s| ==> s[i] == s[1..][i - 1];
    }
  }

  lemma {:induction false} TrimRightEmpty(s: string)
    ensures TrimRight(s) == "" <==> forall i :: 0 <= i < |s| ==> IsSpace(s[i])
  {
    if s != [] { TrimRightEmpty(s[..|s| - 1]); }
  }

  lemma {:induction false} TrimLeftHead(s: string)
    ensures TrimLeft(s) != "" ==> !IsSpace(TrimLeft(s)[0])
  {
    if s != [] { TrimLeftHead(s[1..]); }
  }

  /** `strings.Trim` with a one-character cutset. */
  function TrimChar(s: string, c: char): string {
    if s != [] && s[0] == c then TrimChar(s[1..], c)
    else if s != [] && s[|s| - 1] == c then TrimChar(s[..|s| - 1], c)
    else s
  }

  /** `strings.Contains`. */
  predicate Contains(s: string, sub: string) {
    exists i | 0 <= i <= |s| :: FoundAt(s, sub, i)
  }

  predicate FoundAt(s: string, sub: string, i: nat)
    requires i <= |s|
  {
    sub <= s[i..]
  }

  // ---------------------------------------------------------------- decimal numbers

  predicate IsDigit(c: char) { '0' <= c <= '9' }

  function DigitChar(d: nat): char
    requires d < 10
  {
    ('0' as int + d) as char
  }

  function DigitValue(c: char): (d: nat)
    requires IsDigit(c)
    ensures d < 10 && DigitChar(d) == c
  {
    c as int - '0' as int
  }

  function NatText(n: nat): (s: string)
    ensures s != [] && forall i :: 0 <= i < |s| ==> IsDigit(s[i])
  {
    if n < 10 then [DigitChar(n)] else NatText(n / 10) + [DigitChar(n % 10)]
  }

  /** `%d`. */
  function IntText(n: int): string {
    if n < 0 then "-" + NatText(-n) else NatText(n)
  }

  function DigitsValue(s: string): nat
    requires forall i :: 0 <= i < |s| ==> IsDigit(s[i])
  {
    if s == [] then 0 else 10 * DigitsValue(s[..|s| - 1]) + DigitValue(s[|s| - 1])
  }

  predicate AllDigits(s: string) {
    s != [] && forall i :: 0 <= i < |s| ==> IsDigit(s[i])
  }

  /** `strconv.ParseInt(s, 10, 64)`; a syntax or range error is `None`. */
  function ParseInt64(s: string): Option<int> {
    var negative := s != [] && s[0] == '-';
    var digits := if s != [] && (s[0] == '-' || s[0] == '+') then s[1..] else s;
    if !AllDigits(digits) then None
    else
      var n := if negative then 0 - DigitsValue(digits) else 0 + DigitsValue(digits);
      if MIN_INT64 <= n <= MAX_INT64 then Some(n) else None
  }

  /** `strconv.Atoi` with its error dropped: 0 for bad syntax, the nearest int64 when out of
      range. */
  function AtoiOrZero(s: string): int {
    var negative := s != [] && s[0] == '-';
    var digits := if s != [] && (s[0] == '-' || s[0] == '+') then s[1..] else s;
    if !AllDigits(digits) then 0
    else if ParseInt64(s).Some? then ParseInt64(s).value
    else if negative then MIN_INT64
    else MAX_INT64
  }

  lemma {:induction false} NatTextValue(n: nat)
    ensures DigitsValue(NatText(n)) == n
  {
    if n < 10 {
      assert DigitsValue([DigitChar(n)]) == 10 * DigitsValue([]) + n by { assert [DigitChar(n)][..0] == []; }
    } else {
      NatTextValue(n / 10);
      assert NatText(n)[..|NatText(n)| - 1] == NatText(n / 10);
    }
  }

  lemma ParseDigits(t: string, negative: bool)
    requires AllDigits(t)
    ensures var n := if negative then 0 - DigitsValue(t) else 0 + DigitsValue(t);
      ParseInt64(if negative then "-" + t else t) == if MIN_INT64 <= n <= MAX_INT64 then Some(n) else None
  {
    hide DigitsValue;
    assert IsDigit(t[0]);
    if negative { assert ("-" + t)[1..] == t; }
  }

  /** Printing an int64 and parsing it gives it back. */
  lemma ParseIntText(n: int)
    requires MIN_INT64 <= n <= MAX_INT64
    ensures ParseInt64(IntText(n)) == Some(n)
  {
    var m := if n < 0 then -n else n;
    var t := NatText(m);
    assert IntText(n) == if n < 0 then "-" + t else t;
    assert AllDigits(t);
    hide *;
    NatTextValue(m);
    ParseDigits(t, n < 0);
  }
}
