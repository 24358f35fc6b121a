/**
 * The few pieces of JavaScript string behaviour the application relies on:
 * `String.prototype.trim`, the decimal rendering of a non-negative integer by
 * template literals, and `startsWith` / `endsWith` / `lastIndexOf`.
 */
module JsText {
  import opened Wrappers

  /** The characters `trim` removes: ECMAScript WhiteSpace and LineTerminator. */
  predicate IsWhitespace(c: char) {
    || c == '\U{9}' || c == '\U{A}' || c == '\U{B}' || c == '\U{C}' || c == '\U{D}'
    || c == '\U{20}' || c == '\U{A0}' || c == '\U{1680}'
    || ('\U{2000}' <= c <= '\U{200A}')
    || c == '\U{2028}' || c == '\U{2029}' || c == '\U{202F}' || c == '\U{205F}'
    || c == '\U{3000}' || c == '\U{FEFF}'
  }

  /** Leading whitespace removed. */
  function TrimStart(s: string): string {
    if s != [] && IsWhitespace(s[0]) then TrimStart(s[1..]) else s
  }

  /** Trailing whitespace removed. */
  function TrimEnd(s: string): string {
    if s != [] && IsWhitespace(s[|s| - 1]) then TrimEnd(s[..|s| - 1]) else s
  }

  /** `s.trim()` */
  function Trim(s: string): string {
    TrimStart(TrimEnd(s))
  }

  /** `TrimStart(s)` is the suffix of `s` after a whitespace prefix, and starts with a non-whitespace character. */
  lemma {:induction false} TrimStartShape(s: string)
    ensures |TrimStart(s)| <= |s| && TrimStart(s) == s[|s| - |TrimStart(s)|..]
    ensures forall k :: 0 <= k < |s| - |TrimStart(s)| ==> IsWhitespace(s[k])
    ensures TrimStart(s) != [] ==> !IsWhitespace(TrimStart(s)[0])
  {
    if s != [] && IsWhitespace(s[0]) {
      var t := s[1..];
      TrimStartShape(t);
      var r := TrimStart(t);
      assert TrimStart(s) == r;
      assert t[|t| - |r|..] == s[|s| - |r|..];
      forall k | 0 <= k < |s| - |r| ensures IsWhitespace(s[k]) {
        if k > 0 { assert s[k] == t[k - 1]; }
      }
    }
  }

  /** `TrimEnd(s)` is the prefix of `s` before a whitespace suffix, and ends with a non-whitespace character. */
  lemma {:induction false} TrimEndShape(s: string)
    ensures |TrimEnd(s)| <= |s| && TrimEnd(s) == s[..|TrimEnd(s)|]
    ensures forall k :: |TrimEnd(s)| <= k < |s| ==> IsWhitespace(s[k])
    ensures TrimEnd(s) != [] ==> !IsWhitespace(TrimEnd(s)[|TrimEnd(s)| - 1])
  {
    if s != [] && IsWhitespace(s[|s| - 1]) {
      var t := s[..|s| - 1];
      TrimEndShape(t);
      var r := TrimEnd(t);
      assert TrimEnd(s) == r;
      assert t[..|r|] == s[..|r|];
      forall k | |r| <= k < |s| ensures IsWhitespace(s[k]) {
        if k < |s| - 1 { assert s[k] == t[k]; }
      }
    }
  }

  /** `s.trim()` is the slice `s[i..i + |Trim(s)|]`, with only whitespace on either side of it. */
  lemma TrimIsSlice(s: string) returns (i: nat)
    ensures i + |Trim(s)| <= |s| && Trim(s) == s[i..i + |Trim(s)|]
    ensures forall k :: 0 <= k < i ==> IsWhitespace(s[k])
    ensures forall k :: i + |Trim(s)| <= k < |s| ==> IsWhitespace(s[k])
  {
    var e := TrimEnd(s);
    TrimEndShape(s);
    TrimStartShape(e);
    var r := TrimStart(e);
    assert Trim(s) == r;
    i := |e| - |r|;
    assert r == e[i..] == s[i..|e|];
    forall k | 0 <= k < i ensures IsWhitespace(s[k]) {
      assert s[k] == e[k];
    }
  }

  /** `s.trim()` is empty exactly when `s` is all whitespace. */
  lemma TrimEmptyIff(s: string)
    ensures Trim(s) == [] <==> forall k :: 0 <= k < |s| ==> IsWhitespace(s[k])
  {
    var i := TrimIsSlice(s);
    var r := Trim(s);
    if r != [] {
      TrimEnds(s);
      assert s[i] == r[0];
    }
  }

  /** A non-empty `s.trim()` begins and ends with a non-whitespace character. */
  lemma TrimEnds(s: string)
    ensures Trim(s) != [] ==> !IsWhitespace(Trim(s)[0]) && !IsWhitespace(Trim(s)[|Trim(s)| - 1])
  {
    var e := TrimEnd(s);
    TrimEndShape(s);
    TrimStartShape(e);
    var r := TrimStart(e);
    assert Trim(s) == r;
    if r != [] {
      assert r == e[|e| - |r|..];
      assert r[|r| - 1] == e[|e| - 1];
    }
  }

  /** A string without surrounding whitespace is its own trim. */
  lemma TrimOfTrimmed(s: string)
    requires s != [] ==> !IsWhitespace(s[0]) && !IsWhitespace(s[|s| - 1])
    ensures Trim(s) == s
  {
  }

  /** Trimming twice is trimming once. */
  lemma TrimIdempotent(s: string)
    ensures Trim(Trim(s)) == Trim(s)
  {
    TrimEnds(s);
    TrimOfTrimmed(Trim(s));
  }

  function DigitChar(d: nat): (c: char)
    requires d < 10
  {
    ('0' as int + d) as char
  }

  /** The number a string of decimal digits denotes, most significant digit first. */
  function DecValue(s: string): nat
    requires forall k :: 0 <= k < |s| ==> '0' <= s[k] <= '9'
  {
    if s == [] then 0 else 10 * DecValue(s[..|s| - 1]) + (s[|s| - 1] as int - '0' as int)
  }

  /** The decimal rendering `${n}` of a non-negative integer: a digit string denoting n. */
  function Dec(n: nat): (r: string)
    ensures r != []
    ensures forall k :: 0 <= k < |r| ==> '0' <= r[k] <= '9'
    ensures (n < 10) == (|r| == 1)
    ensures DecValue(r) == n
  {
    if n < 10 then [DigitChar(n)]
    else
      var prefix := Dec(n / 10);
      var r := prefix + [DigitChar(n % 10)];
      assert r[..|r| - 1] == prefix;
      r
  }

  /** Distinct numbers have distinct decimal renderings. */
  lemma DecInjective(a: nat, b: nat)
    requires Dec(a) == Dec(b)
    ensures a == b
  {
    assert a == DecValue(Dec(a)) && b == DecValue(Dec(b));
  }

  predicate StartsWith(s: string, prefix: string) {
    |prefix| <= |s| && s[..|prefix|] == prefix
  }

  predicate EndsWith(s: string, suffix: string) {
    |suffix| <= |s| && s[|s| - |suffix|..] == suffix
  }

  /** `s.lastIndexOf(c)`: the greatest index holding `c`, or -1. */
  function LastIndexOf(s: string, c: char): (i: int)
    ensures -1 <= i < |s|
    ensures i >= 0 ==> s[i] == c
    ensures forall k :: i < k < |s| ==> s[k] != c
  {
    if s == [] then -1
    else if s[|s| - 1] == c then |s| - 1
    else LastIndexOf(s[..|s| - 1], c)
  }

  /** The positions of `s` holding a character outside the Basic Multilingual Plane. */
  function Astral(s: string): set<int> {
    set k | 0 <= k < |s| && s[k] > '\U{FFFF}'
  }

  /** The astral positions of `s` are those of its prefix without the last character, plus possibly the last. */
  lemma AstralOfLast(s: string)
    requires s != []
    ensures |Astral(s)| == |Astral(s[..|s| - 1])| + (if s[|s| - 1] > '\U{FFFF}' then 1 else 0)
  {
    var t := s[..|s| - 1];
    var last: set<int> := if s[|s| - 1] > '\U{FFFF}' then {|s| - 1} else {};
    forall k ensures k in Astral(s) <==> k in Astral(t) + last {
      if 0 <= k < |t| { assert s[k] == t[k]; }
    }
    assert Astral(s) == Astral(t) + last;
    assert |s| - 1 !in Astral(t);
  }

  /**
   * `s.length`: JavaScript counts UTF-16 code units, one per character and
   * one more for each character outside the Basic Multilingual Plane.
   */
  function Utf16Length(s: string): (n: nat)
    ensures n == |s| + |Astral(s)|
    ensures |s| <= n <= 2 * |s|
    ensures (forall k :: 0 <= k < |s| ==> s[k] <= '\U{FFFF}') ==> n == |s|
  {
    if s == [] then 0
    else
      AstralOfLast(s);
      (if s[|s| - 1] <= '\U{FFFF}' then 1 else 2) + Utf16Length(s[..|s| - 1])
  }

  /** JavaScript truthiness of an optional string: present and not empty. */
  predicate Truthy(s: Option<string>) {
    s.Some? && s.value != ""
  }
}
