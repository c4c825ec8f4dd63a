/** Small value types and the Java text and arithmetic primitives the
    rest of the model is written with: Option / Result, decimal rendering
    and Long.parseLong, ASCII case folding, String.isBlank and trim(),
    Java's truncating remainder and 32-bit int wrap-around. */
module Common {

  datatype Option<+T> = None | Some(value: T) {
    function GetOr(default: T): T {
      match this
      case Some(v) => v
      case None => default
    }
  }

  datatype Result<+T, +E> = Ok(value: T) | Err(error: E)

  // ---------------------------------------------------------------------
  // Decimal numbers
  // ---------------------------------------------------------------------

  const LONG_MAX: int := 0x7fff_ffff_ffff_ffff
  const LONG_MIN: int := -0x8000_0000_0000_0000
  const INT_MAX: int := 0x7fff_ffff
  const INT_MIN: int := -0x8000_0000

  /** A Java `int`. */
  type Int32 = x: int | INT_MIN <= x <= INT_MAX

  predicate IsDigit(c: char) { '0' <= c <= '9' }

  predicate AllDigits(s: string) { forall i :: 0 <= i < |s| ==> IsDigit(s[i]) }

  function DigitChar(d: nat): (c: char)
    requires d < 10
    ensures IsDigit(c)
  {
    ['0', '1', '2', '3', '4', '5', '6', '7', '8', '9'][d]
  }

  function DigitValue(c: char): (d: nat)
    requires IsDigit(c)
    ensures d < 10
  {
    (c as int - '0' as int) as nat
  }

  /** The text Java's Long.toString / StringBuilder.append(long) gives for n >= 0. */
  function NatToString(n: nat): (s: string)
    ensures |s| > 0 && AllDigits(s)
  {
    if n < 10 then [DigitChar(n)] else NatToString(n / 10) + [DigitChar(n % 10)]
  }

  /** The text Java gives for any integer (a '-' sign for negatives). */
  function IntToString(n: int): string {
    if n < 0 then "-" + NatToString(-n) else NatToString(n)
  }

  /** The value a string of decimal digits denotes. */
  function DigitsValue(s: string): nat
    requires AllDigits(s)
  {
    if s == [] then 0 else DigitsValue(s[..|s| - 1]) * 10 + DigitValue(s[|s| - 1])
  }

  lemma {:induction false} DigitCharValue(d: nat)
    requires d < 10
    ensures DigitValue(DigitChar(d)) == d
  {
  }

  /** Rendering a number in decimal and reading it back gives the number. */
  lemma {:induction false} NatToStringRoundTrip(n: nat)
    ensures DigitsValue(NatToString(n)) == n
  {
    var s := NatToString(n);
    if n < 10 {
      DigitCharValue(n);
    } else {
      NatToStringRoundTrip(n / 10);
      DigitCharValue(n % 10);
      assert s[..|s| - 1] == NatToString(n / 10);
    }
  }

  /** Long.parseLong on text known to be only digits: fails (NumberFormatException)
      on the empty string and on values above Long.MAX_VALUE. */
  function ParseUnsignedLong(s: string): (r: Option<nat>)
    requires AllDigits(s)
    ensures r.Some? <==> s != [] && DigitsValue(s) <= LONG_MAX
    ensures r.Some? ==> r.value == DigitsValue(s)
  {
    if s != [] && DigitsValue(s) <= LONG_MAX then Some(DigitsValue(s)) else None
  }

  /** Long.parseLong: an optional leading '+' or '-', then one or more digits,
      within the range of a signed 64-bit value; anything else fails. */
  function ParseLong(s: string): (r: Option<int>)
    ensures r.Some? ==> LONG_MIN <= r.value <= LONG_MAX
  {
    if |s| > 0 && (s[0] == '-' || s[0] == '+') then
      var body := s[1..];
      if body != [] && AllDigits(body) then
        var v: int := if s[0] == '-' then 0 - DigitsValue(body) else DigitsValue(body);
        if LONG_MIN <= v <= LONG_MAX then Some(v) else None
      else None
    else if s != [] && AllDigits(s) && DigitsValue(s) <= LONG_MAX then Some(DigitsValue(s))
    else None
  }

  lemma ParseLongOfNatToString(n: nat)
    requires n <= LONG_MAX
    ensures ParseLong(NatToString(n)) == Some(n)
  {
    NatToStringRoundTrip(n);
  }

  // ---------------------------------------------------------------------
  // Characters and case
  // ---------------------------------------------------------------------

  /** ASCII part of Character.toLowerCase. */
  function LowerChar(c: char): char {
    if 'A' <= c <= 'Z' then (c as int + 32) as char else c
  }

  /** ASCII part of Character.toUpperCase. */
  function UpperChar(c: char): char {
    if 'a' <= c <= 'z' then (c as int - 32) as char else c
  }

  /** String.toLowerCase, restricted to ASCII letters. */
  function Lower(s: string): (r: string)
    ensures |r| == |s|
    ensures forall i :: 0 <= i < |s| ==> r[i] == LowerChar(s[i])
  {
    if s == [] then [] else [LowerChar(s[0])] + Lower(s[1..])
  }

  /** String.toUpperCase, restricted to ASCII letters. */
  function Upper(s: string): (r: string)
    ensures |r| == |s|
    ensures forall i :: 0 <= i < |s| ==> r[i] == UpperChar(s[i])
  {
    if s == [] then [] else [UpperChar(s[0])] + Upper(s[1..])
  }

  /** String.equalsIgnoreCase, restricted to ASCII letters. */
  predicate EqualsIgnoreCase(a: string, b: string) {
    |a| == |b| && forall i :: 0 <= i < |a| ==> LowerChar(a[i]) == LowerChar(b[i])
  }

  lemma LowerIdempotent(s: string)
    ensures Lower(Lower(s)) == Lower(s)
  {
  }

  lemma EqualsIgnoreCaseLower(s: string)
    ensures EqualsIgnoreCase(Lower(s), s)
  {
  }

  /** Character.isWhitespace: the Unicode space, line and paragraph separators
      other than the non-breaking ones, plus the ASCII controls \t \n \u000B \f \r
      and \u001C to \u001F. */
  predicate IsJavaWhitespace(c: char) {
    || c == ' ' || c == '\t' || c == '\n' || c == '\U{000B}' || c == '\U{000C}' || c == '\r'
    || ('\U{001C}' <= c <= '\U{001F}')
    || c == '\U{1680}' || ('\U{2000}' <= c <= '\U{2006}') || ('\U{2008}' <= c <= '\U{200A}')
    || c == '\U{2028}' || c == '\U{2029}' || c == '\U{205F}' || c == '\U{3000}'
  }

  /** String.isBlank: empty or only whitespace. */
  predicate IsBlank(s: string) {
    forall i :: 0 <= i < |s| ==> IsJavaWhitespace(s[i])
  }

  /** s.trim().isEmpty(): trim() strips every character up to U+0020 at both ends,
      so the result is empty exactly when every character is at most U+0020. */
  predicate TrimIsEmpty(s: string) {
    forall i :: 0 <= i < |s| ==> s[i] <= ' '
  }

  /** A null-or-blank test as the Java code writes it: `x != null && !x.trim().isEmpty()`. */
  predicate HasText(s: Option<string>) {
    s.Some? && !TrimIsEmpty(s.value)
  }

  // ---------------------------------------------------------------------
  // Java integer arithmetic
  // ---------------------------------------------------------------------

  /** Java's `a % d`: the remainder truncates toward zero and takes the sign of a. */
  function JavaRem(a: int, d: int): (r: int)
    requires d != 0
    ensures a >= 0 ==> 0 <= r < (if d > 0 then d else -d)
    ensures a < 0 ==> -(if d > 0 then d else -d) < r <= 0
  {
    var m := if d > 0 then d else -d;
    if a >= 0 then a % m else -((-a) % m)
  }

  /** The value a 32-bit Java int holds after an arithmetic result x wraps. */
  function WrapInt32(x: int): (r: int)
    ensures INT_MIN <= r <= INT_MAX
    ensures INT_MIN <= x <= INT_MAX ==> r == x
  {
    (x - INT_MIN) % 0x1_0000_0000 + INT_MIN
  }

  function Max(a: int, b: int): int { if a >= b then a else b }
  function Min(a: int, b: int): int { if a <= b then a else b }

  // ---------------------------------------------------------------------
  // Sequences
  // ---------------------------------------------------------------------

  /** A non-empty set has an element (the witness the `:|` choices below need). */
  lemma SetHasElement(s: set<int>)
    requires s != {}
    ensures exists x :: x in s
  {
    if forall x :: x !in s {
      assert false;
    }
  }

  /** The values a sequence holds. */
  function Elements<T>(s: seq<T>): set<T> {
    set x | x in s
  }

  /** One more element of a prefix adds that element to its values. */
  lemma ElementsOfLongerPrefix<T>(s: seq<T>, i: nat)
    requires i < |s|
    ensures Elements(s[..i + 1]) == Elements(s[..i]) + {s[i]}
  {
    assert s[..i + 1] == s[..i] + [s[i]];
  }

  /** A subset is no larger than its superset, and as large only when the
      two are the same set. */
  lemma {:induction false} SubsetCardinality<T>(a: set<T>, b: set<T>)
    requires a <= b
    ensures |a| <= |b|
    ensures |a| == |b| ==> a == b
    decreases |b|
  {
    if b != {} {
      var x :| x in b;
      SubsetCardinality(a - {x}, b - {x});
      if x in a {
        assert a == (a - {x}) + {x};
      } else {
        assert a - {x} == a;
      }
      assert b == (b - {x}) + {x};
    }
  }

  /** Some element of a non-empty set of keys (the iteration order of a
      hash map's key set is not modelled). */
  method PickKey(s: set<string>) returns (k: string)
    requires s != {}
    ensures k in s
  {
    k :| k in s;
  }

  /** The entries of m whose keys are in keys. */
  function Restrict<V>(m: map<int, V>, keys: set<int>): map<int, V> {
    map b | b in m && b in keys :: m[b]
  }

  /** The last n elements of xs (all of xs when it is shorter). */
  function LastN<T>(xs: seq<T>, n: nat): (r: seq<T>)
    ensures |r| == Min(|xs|, n)
    ensures r == xs[|xs| - |r|..]
  {
    if |xs| <= n then xs else xs[|xs| - n..]
  }

  /** Concatenation of a sequence of strings. */
  function Concat(parts: seq<string>): string {
    if parts == [] then "" else parts[0] + Concat(parts[1..])
  }

  /** A second update of the same key overrides the first. */
  lemma UpdateTwice<K, V>(m: map<K, V>, k: K, a: V, b: V)
    ensures m[k := a][k := b] == m[k := b]
  {
  }

  /** A sequence one longer than `front`, agreeing with it on its indices and
      ending in `last`, is `front` with `last` appended. */
  lemma SnocOf<T>(s: seq<T>, front: seq<T>, last: T)
    requires |s| == |front| + 1 && s[|front|] == last
    requires forall i :: 0 <= i < |front| ==> s[i] == front[i]
    ensures s == front + [last]
  {
  }

  /** Regrouping a concatenation, for proofs whose context makes the
      solver slow to find it. */
  lemma AppendAssoc(x: string, y: string, z: string)
    ensures (x + y) + z == x + (y + z)
  {
  }

  lemma {:induction false} ConcatAppend(a: seq<string>, b: seq<string>)
    ensures Concat(a + b) == Concat(a) + Concat(b)
  {
    if a != [] {
      assert (a + b)[1..] == a[1..] + b;
      ConcatAppend(a[1..], b);
    } else {
      assert a + b == b;
    }
  }

  /** The items joined with a separator between consecutive items (String.join). */
  function Join(sep: string, items: seq<string>): string {
    if items == [] then ""
    else if |items| == 1 then items[0]
    else items[0] + sep + Join(sep, items[1..])
  }
}
