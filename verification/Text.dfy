/** The text operations the scripts rely on: stripping, splitting, joining, and decimal numbers. */
module Text {
  import opened Options

  // ---- Text ------------------------------------------------------------------------------------

  /** What the scripts' language takes for white space. */
  predicate IsSpace(c: char) {
    || c == ' ' || '\t' <= c <= '\r' || '\U{1c}' <= c <= '\U{1f}'
    || WideSpace(c)
  }

  predicate WideSpace(c: char) {
    || c == '\U{85}' || c == '\U{a0}' || c == '\U{1680}' || '\U{2000}' <= c <= '\U{200a}'
    || c == '\U{2028}' || c == '\U{2029}' || c == '\U{202f}' || c == '\U{205f}' || c == '\U{3000}'
  }

  function StripLeft(s: string): string {
    if s != [] && IsSpace(s[0]) then StripLeft(s[1..]) else s
  }

  function StripRight(s: string): string {
    if s != [] && IsSpace(s[|s| - 1]) then StripRight(s[..|s| - 1]) else s
  }

  function Strip(s: string): string {
    StripRight(StripLeft(s))
  }

  /** The index of the first `c`, or the length when there is none. */
  function Find(s: string, c: char): (k: nat)
    ensures k <= |s| && c !in s[..k] && (k < |s| ==> s[k] == c)
  {
    if s == [] || s[0] == c then 0 else 1 + Find(s[1..], c)
  }

  predicate StartsAt(src: string, pattern: string, j: nat) {
    j + |pattern| <= |src| && src[j..j + |pattern|] == pattern
  }

  /** The first occurrence of `pattern` from `j` on; beyond the end when there is none. */
  function FindFrom(src: string, pattern: string, j: nat): (k: nat)
    ensures j <= k
    ensures k <= |src| ==> StartsAt(src, pattern, k)
    decreases if j <= |src| then |src| + 1 - j else 0
  {
    if j > |src| then j
    else if StartsAt(src, pattern, j) then j
    else FindFrom(src, pattern, j + 1)
  }

  function Split(s: string, separator: char): (parts: seq<string>)
    ensures |parts| > 0
    decreases |s|
  {
    var k := Find(s, separator);
    if k == |s| then [s] else [s[..k]] + Split(s[k + 1..], separator)
  }

  function Join(parts: seq<string>, separator: char): string {
    if parts == [] then ""
    else if |parts| == 1 then parts[0]
    else parts[0] + [separator] + Join(parts[1..], separator)
  }

  // ---- Numbers ---------------------------------------------------------------------------------

  predicate IsDigit(c: char) { '0' <= c <= '9' }

  predicate AllDigits(s: string) {
    forall k :: 0 <= k < |s| ==> IsDigit(s[k])
  }

  function Digit(d: nat): char
    requires d < 10
  {
    '0' + d as char
  }

  function Decimal(n: nat): (s: string)
    ensures s != [] && AllDigits(s)
  {
    if n < 10 then [Digit(n)] else Decimal(n / 10) + [Digit(n % 10)]
  }

  function ToText(n: int): string {
    if n < 0 then "-" + Decimal(-n) else Decimal(n)
  }

  function DigitsValue(s: string): nat
    requires AllDigits(s)
  {
    if s == [] then 0 else 10 * DigitsValue(s[..|s| - 1]) + (s[|s| - 1] - '0') as nat
  }

  /** Reads an integer: spaces around it and one sign are allowed. */
  function ParseInt(text: string): Option<int> {
    var s := Strip(text);
    var negative := s != [] && s[0] == '-';
    var digits := if s != [] && (s[0] == '-' || s[0] == '+') then s[1..] else s;
    if digits == [] || !AllDigits(digits) then None
    else
      var n: int := DigitsValue(digits);
      Some(if negative then -n else n)
  }

  // ---- Reading back what was written -----------------------------------------------------------

  predicate NoSpaces(s: string) {
    forall k :: 0 <= k < |s| ==> !IsSpace(s[k])
  }

  lemma {:induction false} DecimalValue(n: nat)
    ensures DigitsValue(Decimal(n)) == n
  {
    if n >= 10 {
      DecimalValue(n / 10);
      var s := Decimal(n);
      assert s[..|s| - 1] == Decimal(n / 10);
    } else {
      assert Decimal(n)[..0] == [];
    }
  }

  lemma {:induction false} FindAppended(a: string, c: char, b: string)
    requires c !in a
    ensures Find(a + [c] + b, c) == |a|
  {
    if a != [] {
      assert (a + [c] + b)[1..] == a[1..] + [c] + b;
      FindAppended(a[1..], c, b);
    }
  }

  lemma {:induction false} FindAbsent(a: string, c: char)
    requires c !in a
    ensures Find(a, c) == |a|
  {
    if a != [] {
      FindAbsent(a[1..], c);
    }
  }

  lemma {:induction false} SplitJoin(parts: seq<string>, separator: char)
    requires parts != [] && forall p :: p in parts ==> separator !in p
    ensures Split(Join(parts, separator), separator) == parts
  {
    var s := Join(parts, separator);
    if |parts| == 1 {
      FindAbsent(parts[0], separator);
    } else {
      var rest := Join(parts[1..], separator);
      assert s == parts[0] + [separator] + rest;
      FindAppended(parts[0], separator, rest);
      assert s[..|parts[0]|] == parts[0] && s[|parts[0]| + 1..] == rest;
      SplitJoin(parts[1..], separator);
    }
  }

  lemma {:induction false} ParseDecimal(n: nat)
    ensures ParseInt(Decimal(n)) == Some(n)
  {
    var s := Decimal(n);
    assert s[0] in s && s[|s| - 1] in s;
    DecimalValue(n);
  }

  lemma {:induction false} StripNothing(s: string)
    requires NoSpaces(s)
    ensures Strip(s) == s
  {
  }
}
