/** Text as Pi-hole's list entries use it: splitting, trimming and decimal numbers
    (the strings and strconv calls of pkg/upstream/pihole/pihole.go). */
module Entries {

  /** strings.IndexByte: the first position of c, or -1. */
  function IndexByte(s: string, c: char): (i: int)
    ensures -1 <= i < |s|
    ensures i < 0 <==> c !in s
    ensures i >= 0 ==> s[i] == c && forall j :: 0 <= j < i ==> s[j] != c
  {
    if s == "" then -1
    else if s[0] == c then 0
    else
      var j := IndexByte(s[1..], c);
      assert forall k :: 1 <= k < |s| ==> s[k] == s[1..][k - 1];
      if j < 0 then -1 else j + 1
  }

  lemma IndexAt(a: string, c: char, b: string)
    requires c !in a
    ensures IndexByte(a + [c] + b, c) == |a|
    ensures (a + [c] + b)[..|a|] == a && (a + [c] + b)[|a| + 1..] == b
  {
    var s := a + [c] + b;
    var i := IndexByte(s, c);
    assert s[|a|] == c;
    assert forall j :: 0 <= j < |a| ==> s[j] == a[j] && a[j] != c;
  }

  /** unicode.IsSpace. */
  predicate IsSpace(c: char): (b: bool)
    ensures b <==> c as int in {9, 10, 11, 12, 13, 0x20, 0x85, 0xA0, 0x1680, 0x2028, 0x2029, 0x202F, 0x205F, 0x3000}
                   || 0x2000 <= c as int <= 0x200A
  {
    || c == '\t' || c == '\n' || c == '\U{0B}' || c == '\U{0C}' || c == '\r' || c == ' '
    || c == '\U{85}' || c == '\U{A0}' || c == '\U{1680}' || '\U{2000}' <= c <= '\U{200A}'
    || c == '\U{2028}' || c == '\U{2029}' || c == '\U{202F}' || c == '\U{205F}' || c == '\U{3000}'
  }

  function TrimLeft(s: string): string {
    if s != "" && IsSpace(s[0]) then TrimLeft(s[1..]) else s
  }

  function TrimRight(s: string): string {
    if s != "" && IsSpace(s[|s| - 1]) then TrimRight(s[..|s| - 1]) else s
  }

  function TrimSpace(s: string): string {
    TrimRight(TrimLeft(s))
  }

  predicate Trimmed(s: string) {
    s == "" || (!IsSpace(s[0]) && !IsSpace(s[|s| - 1]))
  }

  lemma {:induction false} TrimLeftShortens(s: string)
    ensures |TrimLeft(s)| <= |s|
  {
    if s != "" && IsSpace(s[0]) { TrimLeftShortens(s[1..]); }
  }

  lemma {:induction false} TrimRightShortens(s: string)
    ensures |TrimRight(s)| <= |s|
  {
    if s != "" && IsSpace(s[|s| - 1]) { TrimRightShortens(s[..|s| - 1]); }
  }

  lemma TrimKeepsIff(s: string)
    ensures TrimSpace(s) == s <==> Trimmed(s)
  {
    TrimLeftShortens(s);
    TrimRightShortens(TrimLeft(s));
    if s != "" {
      if IsSpace(s[0]) {
        TrimLeftShortens(s[1..]);
      } else if IsSpace(s[|s| - 1]) {
        TrimRightShortens(s[..|s| - 1]);
      }
    }
  }

  // ---- decimal numbers ----

  const MAX_INT := 0x7FFF_FFFF_FFFF_FFFF
  const MAX_UINT := 0xFFFF_FFFF_FFFF_FFFF

  predicate IsDigit(c: char) {
    '0' <= c <= '9'
  }

  function DigitOf(c: char): nat
    requires IsDigit(c)
  {
    c as int - '0' as int
  }

  function Digit(d: nat): (c: char)
    requires d < 10
    ensures IsDigit(c) && DigitOf(c) == d
  {
    '0' + d as char
  }

  /** %d for a non-negative number. */
  function Print(n: nat): string {
    if n < 10 then [Digit(n)] else Print(n / 10) + [Digit(n % 10)]
  }

  datatype Parsed = Number(n: nat) | Syntax | Range

  /** strconv.ParseUint's loop: a bad character is a syntax error, unless the number overflowed before it. */
  function ParseDigits(s: string, acc: nat): Parsed {
    if s == "" then Number(acc)
    else if !IsDigit(s[0]) then Syntax
    else if acc >= MAX_UINT / 10 + 1 then Range
    else if 10 * acc + DigitOf(s[0]) > MAX_UINT then Range
    else ParseDigits(s[1..], 10 * acc + DigitOf(s[0]))
  }

  /** strconv.Atoi's number, its error dropped: 0 on bad syntax, the nearest int64 when out of range. */
  function Atoi(s: string): (n: int)
    ensures -MAX_INT - 1 <= n <= MAX_INT
  {
    var negative := s != "" && s[0] == '-';
    var digits := if s != "" && (s[0] == '-' || s[0] == '+') then s[1..] else s;
    if digits == "" then 0
    else match ParseDigits(digits, 0)
      case Syntax => 0
      case Range => if negative then -MAX_INT - 1 else MAX_INT
      case Number(n) =>
        var m: int := if negative then 0 - n else n;
        if m > MAX_INT then MAX_INT else if m < -MAX_INT - 1 then -MAX_INT - 1 else m
  }

  lemma {:induction false} ParsePrinted(n: nat, rest: string)
    requires n <= MAX_INT
    ensures ParseDigits(Print(n) + rest, 0) == ParseDigits(rest, n)
    ensures Print(n) != "" && IsDigit(Print(n)[0])
    decreases n
  {
    if n < 10 {
      assert ([Digit(n)] + rest)[1..] == rest;
    } else {
      var tail := [Digit(n % 10)] + rest;
      ParsePrinted(n / 10, tail);
      assert Print(n) + rest == Print(n / 10) + tail;
      assert tail[1..] == rest;
    }
  }

  predicate AllDigits(s: string) {
    forall i :: 0 <= i < |s| ==> IsDigit(s[i])
  }

  /** The number that digits spell after those of `acc`, however large. */
  function Spelled(s: string, acc: nat): nat
    requires AllDigits(s)
  {
    if s == "" then acc else Spelled(s[1..], 10 * acc + DigitOf(s[0]))
  }

  lemma {:induction false} SpelledGrows(s: string, acc: nat)
    requires AllDigits(s)
    ensures Spelled(s, acc) >= acc && (s != "" ==> Spelled(s, acc) >= 10 * acc)
  {
    if s != "" {
      SpelledGrows(s[1..], 10 * acc + DigitOf(s[0]));
    }
  }

  /** Digits are read as the number they spell if it fits 64 bits. */
  lemma {:induction false} ParseDigitsIs(s: string, acc: nat)
    requires AllDigits(s) && acc <= MAX_UINT
    ensures ParseDigits(s, acc) == if Spelled(s, acc) <= MAX_UINT then Number(Spelled(s, acc)) else Range
  {
    if s != "" {
      SpelledGrows(s, acc);
      SpelledGrows(s[1..], 10 * acc + DigitOf(s[0]));
      if 10 * acc + DigitOf(s[0]) <= MAX_UINT {
        ParseDigitsIs(s[1..], 10 * acc + DigitOf(s[0]));
      }
    }
  }

  /** Anything else after digits that fit is bad syntax. */
  lemma {:induction false} ParseStrayIs(s: string, acc: nat, i: nat)
    requires i < |s| && !IsDigit(s[i]) && AllDigits(s[..i]) && acc <= MAX_UINT && Spelled(s[..i], acc) <= MAX_UINT
    ensures ParseDigits(s, acc) == Syntax
  {
    if i > 0 {
      var next := 10 * acc + DigitOf(s[0]);
      assert s[..i][1..] == s[1..][..i - 1] && s[..i][0] == s[0];
      SpelledGrows(s[..i][1..], next);
      ParseStrayIs(s[1..], next, i - 1);
    }
  }

  function Clamp(n: int): int {
    if n > MAX_INT then MAX_INT else if n < -MAX_INT - 1 then -MAX_INT - 1 else n
  }

  /** What is read: the number spelled, with its sign, as near as int64 comes to it; 0 for a lone sign. */
  lemma AtoiReads(s: string)
    requires s != "" && AllDigits(s)
    ensures Atoi(s) == Atoi("+" + s) == Clamp(Spelled(s, 0)) && Atoi("-" + s) == Clamp(0 - Spelled(s, 0))
    ensures Atoi("") == Atoi("+") == Atoi("-") == 0
  {
    ParseDigitsIs(s, 0);
    assert ("+" + s)[1..] == s && ("-" + s)[1..] == s;
    assert IsDigit(s[0]);
  }

  /** And 0 if any other character follows digits that fit 64 bits. */
  lemma AtoiRejects(s: string, i: nat)
    requires i < |s| && !IsDigit(s[i]) && AllDigits(s[..i]) && Spelled(s[..i], 0) <= MAX_UINT
    requires i > 0 || s[0] !in {'+', '-'}
    ensures Atoi(s) == Atoi("+" + s) == Atoi("-" + s) == 0
  {
    ParseStrayIs(s, 0, i);
    assert ("+" + s)[1..] == s && ("-" + s)[1..] == s;
    if i > 0 {
      assert IsDigit(s[..i][0]);
    }
  }

  /** Every non-negative int64 reads back as printed. */
  lemma AtoiUndoesPrint(n: nat)
    requires n <= MAX_INT
    ensures Atoi(Print(n)) == n
  {
    ParsePrinted(n, "");
    assert Print(n) + "" == Print(n);
  }

  /** strings.SplitN(s, sep, n) for a one-character separator and n >= 1. */
  function SplitN(s: string, sep: char, n: nat): (parts: seq<string>)
    requires n >= 1
    ensures 1 <= |parts| <= n
    decreases n
  {
    var i := IndexByte(s, sep);
    if n == 1 || i < 0 then [s] else [s[..i]] + SplitN(s[i + 1..], sep, n - 1)
  }
}
