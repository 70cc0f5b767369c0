/** The Go string functions the operator leans on: Join, Split, Cut, TrimSpace, Itoa and Atoi. */
module Text {

  datatype Option<+T> = None | Some(value: T)

  // ---- Join and Split on a one-character separator

  function Join(parts: seq<string>, sep: char): (s: string) {
    if parts == [] then ""
    else if |parts| == 1 then parts[0]
    else parts[0] + [sep] + Join(parts[1..], sep)
  }

  /** The part of s before the first sep (all of s when there is none). */
  function Head(s: string, sep: char): (h: string)
    ensures |h| <= |s| && h == s[..|h|]
    ensures sep !in h
    ensures |h| < |s| ==> s[|h|] == sep
  {
    if s == "" || s[0] == sep then ""
    else [s[0]] + Head(s[1..], sep)
  }

  function Split(s: string, sep: char): (parts: seq<string>)
    ensures |parts| >= 1
    decreases |s|
  {
    var h := Head(s, sep);
    if |h| == |s| then [s] else [h] + Split(s[|h| + 1..], sep)
  }

  /** strings.Cut: before the first sep, after it, and whether there was one. */
  function Cut(s: string, sep: char): (r: (string, string, bool)) {
    var h := Head(s, sep);
    if |h| == |s| then (s, "", false) else (h, s[|h| + 1..], true)
  }

  lemma {:induction false} HeadOf(a: string, sep: char, rest: string)
    requires sep !in a
    ensures Head(a + [sep] + rest, sep) == a
    ensures Head(a, sep) == a
  {
    if a != "" {
      HeadOf(a[1..], sep, rest);
      assert (a + [sep] + rest)[1..] == a[1..] + [sep] + rest;
    }
  }

  lemma CutAtFirst(a: string, sep: char, rest: string)
    requires sep !in a
    ensures Cut(a + [sep] + rest, sep) == (a, rest, true)
    ensures Cut(a, sep) == (a, "", false)
  {
    HeadOf(a, sep, rest);
    assert (a + [sep] + rest)[|a| + 1..] == rest;
  }

  /** Split undoes Join for every list of separator-free parts. */
  lemma {:induction false} SplitJoin(parts: seq<string>, sep: char)
    requires parts != []
    requires forall p :: p in parts ==> sep !in p
    ensures Split(Join(parts, sep), sep) == parts
  {
    if |parts| == 1 {
      HeadOf(parts[0], sep, "");
    } else {
      var rest := Join(parts[1..], sep);
      HeadOf(parts[0], sep, rest);
      assert (parts[0] + [sep] + rest)[|parts[0]| + 1..] == rest;
      SplitJoin(parts[1..], sep);
    }
  }

  /** Join undoes Split on every text. */
  lemma {:induction false} JoinSplit(s: string, sep: char)
    ensures Join(Split(s, sep), sep) == s
    ensures forall p :: p in Split(s, sep) ==> sep !in p
    decreases |s|
  {
    var h := Head(s, sep);
    if |h| < |s| {
      JoinSplit(s[|h| + 1..], sep);
      assert s == h + [sep] + s[|h| + 1..];
      var rest := Split(s[|h| + 1..], sep);
      assert Split(s, sep) == [h] + rest && ([h] + rest)[1..] == rest;
    }
  }

  lemma {:induction false} JoinHasNo(parts: seq<string>, sep: char, c: char)
    requires c != sep
    requires forall p :: p in parts ==> c !in p
    ensures c !in Join(parts, sep)
  {
    if |parts| > 1 { JoinHasNo(parts[1..], sep, c); }
  }

  // ---- TrimSpace: the characters of unicode.IsSpace

  predicate IsSpace(c: char) {
    var n := c as int;
    9 <= n <= 13 || n == 32 || n == 0x85 || n == 0xA0 || n == 0x1680 || 0x2000 <= n <= 0x200A ||
    n == 0x2028 || n == 0x2029 || n == 0x202F || n == 0x205F || n == 0x3000
  }

  function TrimLeft(s: string): string {
    if s != "" && IsSpace(s[0]) then TrimLeft(s[1..]) else s
  }

  function TrimRight(s: string): string {
    if s != "" && IsSpace(s[|s| - 1]) then TrimRight(s[..|s| - 1]) else s
  }

  function TrimSpace(s: string): string { TrimRight(TrimLeft(s)) }

  // ---- numbers in decimal

  predicate IsDigit(c: char) { '0' <= c <= '9' }

  predicate AllDigits(s: string) { forall i :: 0 <= i < |s| ==> IsDigit(s[i]) }

  function DigitChar(d: nat): (c: char)
    requires d < 10
    ensures IsDigit(c) && (c as int) - ('0' as int) == d
  {
    (('0' as int) + d) as char
  }

  function NatText(n: nat): (s: string)
    ensures s != "" && AllDigits(s)
  {
    if n < 10 then [DigitChar(n)] else NatText(n / 10) + [DigitChar(n % 10)]
  }

  function IntText(i: int): (s: string)
    ensures s != ""
  {
    if i < 0 then "-" + NatText(-i) else NatText(i)
  }

  function DigitsValue(s: string): (n: nat)
    requires AllDigits(s)
  {
    if s == "" then 0
    else DigitsValue(s[..|s| - 1]) * 10 + ((s[|s| - 1] as int) - ('0' as int))
  }

  lemma {:induction false} NatTextValue(n: nat)
    ensures DigitsValue(NatText(n)) == n
  {
    if n >= 10 {
      NatTextValue(n / 10);
      var s := NatText(n);
      assert s[..|s| - 1] == NatText(n / 10);
    } else {
      var s := NatText(n);
      assert s[..0] == "";
    }
  }

  const MAX_INT64: int := 0x7FFF_FFFF_FFFF_FFFF

  /** strconv.Atoi on a 64-bit platform: an optional sign, at least one digit, in range. */
  function Atoi(s: string): (r: Option<int>) {
    var signed := s != "" && (s[0] == '+' || s[0] == '-');
    var digits := if signed then s[1..] else s;
    if digits == "" || !AllDigits(digits) then None
    else
      var n: int := DigitsValue(digits);
      var v: int := if signed && s[0] == '-' then -n else n;
      if -MAX_INT64 - 1 <= v <= MAX_INT64 then Some(v) else None
  }

  lemma DigitsAreNotSpecial(s: string)
    requires AllDigits(s)
    ensures forall c :: c in s ==> IsDigit(c) && !IsSpace(c)
    ensures TrimSpace(s) == s
  {}

  /** Reading back a printed number gives the number. */
  lemma AtoiNatText(n: nat)
    requires n <= MAX_INT64
    ensures Atoi(NatText(n)) == Some(n)
    ensures TrimSpace(NatText(n)) == NatText(n)
  {
    NatTextValue(n);
    var s := NatText(n);
    assert IsDigit(s[0]);
    DigitsAreNotSpecial(s);
  }
}
