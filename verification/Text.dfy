// Go's string helpers, as far as the schedule parser and the sort keys use them.

module Text {
  import opened Options

  const MAX_INT64 := 0x7fff_ffff_ffff_ffff

  /** Two's-complement truncation to 64 bits. */
  function Wrap64(x: int): int {
    (x + 0x8000_0000_0000_0000) % 0x1_0000_0000_0000_0000 - 0x8000_0000_0000_0000
  }

  /** Go's unicode.IsSpace. */
  predicate IsSpace(c: char) {
    || '\t' <= c <= '\r' || c == ' ' || c == '\U{0085}' || c == '\U{00A0}' || c == '\U{1680}'
    || '\U{2000}' <= c <= '\U{200A}' || c == '\U{2028}' || c == '\U{2029}' || c == '\U{202F}'
    || c == '\U{205F}' || c == '\U{3000}'
  }

  predicate Blank(s: string) {
    forall c | c in s :: IsSpace(c)
  }

  function TrimLeft(s: string): string {
    if s != "" && IsSpace(s[0]) then TrimLeft(s[1..]) else s
  }

  function TrimRight(s: string): string {
    if s != "" && IsSpace(s[|s| - 1]) then TrimRight(s[..|s| - 1]) else s
  }

  function TrimSpace(s: string): string {
    TrimRight(TrimLeft(s))
  }

  function ToLower(s: string): string {
    seq(|s|, i requires 0 <= i < |s| => if 'A' <= s[i] <= 'Z' then s[i] + 32 as char else s[i])
  }

  /** The first position of c, or the length when there is none. */
  function IndexOf(s: string, c: char): (i: nat)
    ensures i <= |s| && (forall k :: 0 <= k < i ==> s[k] != c) && (i < |s| ==> s[i] == c)
  {
    if s == "" || s[0] == c then 0
    else IndexOf(s[1..], c) + 1
  }

  function Split(s: string, sep: char): (parts: seq<string>)
    ensures |parts| >= 1
    decreases |s|
  {
    var i := IndexOf(s, sep);
    if i == |s| then [s] else [s[..i]] + Split(s[i + 1..], sep)
  }

  function Join(parts: seq<string>, sep: char): string
    requires |parts| >= 1
  {
    if |parts| == 1 then parts[0] else parts[0] + [sep] + Join(parts[1..], sep)
  }

  lemma {:induction false} SplitJoin(parts: seq<string>, sep: char)
    requires |parts| >= 1 && forall p | p in parts :: sep !in p
    ensures Split(Join(parts, sep), sep) == parts
  {
    var s := Join(parts, sep);
    var i := IndexOf(s, sep);
    assert parts[0] in parts;
    if |parts| > 1 {
      IndexOfFirst(parts[0], sep, Join(parts[1..], sep));
      assert s == parts[0] + [sep] + Join(parts[1..], sep);
      assert s[..i] == parts[0] && s[i + 1..] == Join(parts[1..], sep);
      SplitJoin(parts[1..], sep);
    }
  }

  /** Splitting takes a text apart at every separator and nowhere else. */
  lemma {:induction false} JoinSplit(s: string, sep: char)
    ensures Join(Split(s, sep), sep) == s
    ensures forall p | p in Split(s, sep) :: sep !in p
    decreases |s|
  {
    var i := IndexOf(s, sep);
    if i < |s| {
      var rest := Split(s[i + 1..], sep);
      JoinSplit(s[i + 1..], sep);
      assert ([s[..i]] + rest)[1..] == rest;
      assert s == s[..i] + [sep] + s[i + 1..];
    }
  }

  lemma {:induction false} IndexOfFirst(a: string, sep: char, b: string)
    requires sep !in a
    ensures IndexOf(a + [sep] + b, sep) == |a|
  {
    var s := a + [sep] + b;
    assert s[|a|] == sep && forall k | 0 <= k < |a| :: s[k] == a[k] && s[k] in a;
  }

  /** The whitespace-separated words of s. */
  function Fields(s: string): seq<string>
    decreases |s|
  {
    if s == "" then []
    else if IsSpace(s[0]) then Fields(s[1..])
    else
      var n := WordLength(s);
      [s[..n]] + Fields(s[n..])
  }

  function WordLength(s: string): (n: nat)
    ensures n <= |s| && (s != "" && !IsSpace(s[0]) ==> n > 0)
  {
    if s == "" || IsSpace(s[0]) then 0 else 1 + WordLength(s[1..])
  }

  predicate AllDigits(s: string) {
    forall i :: 0 <= i < |s| ==> '0' <= s[i] <= '9'
  }

  function DigitsValue(s: string): nat
    requires AllDigits(s)
  {
    if s == "" then 0
    else 10 * DigitsValue(s[..|s| - 1]) + (s[|s| - 1] - '0') as int
  }

  /** strconv.Atoi on a 64-bit platform: an optional sign, at least one digit, in range. */
  function Atoi(s: string): Option<int> {
    var negative := s != "" && s[0] == '-';
    var digits := if s != "" && (s[0] == '-' || s[0] == '+') then s[1..] else s;
    if digits == "" || !AllDigits(digits) then None
    else
      var v: int := if negative then -(DigitsValue(digits) as int) else DigitsValue(digits) as int;
      if -MAX_INT64 - 1 <= v <= MAX_INT64 then Some(v) else None
  }

  function Decimal(n: nat): (s: string)
    ensures s != "" && AllDigits(s) && DigitsValue(s) == n
  {
    var last := ['0' + (n % 10) as char];
    if n < 10 then last
    else
      var s := Decimal(n / 10) + last;
      assert s[..|s| - 1] == Decimal(n / 10);
      s
  }

  lemma AtoiDecimal(n: nat)
    requires n <= MAX_INT64
    ensures Atoi(Decimal(n)) == Some(n)
  {
    assert Decimal(n)[0] in Decimal(n);
  }
}
