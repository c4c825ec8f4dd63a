/** Segment file names `brand_bitrate_sequence.ts`, read the way the stream
    engine's pattern `([^_]+)_([0-9]+)_([0-9]+)\.ts$` reads them with an
    unanchored find(): the match must end at the end of the name (or just
    before a final line terminator, as Java's `$` allows), the two number
    groups are the digit runs between the last two underscores and ".ts",
    and the brand group is the run of non-underscore characters before them,
    starting where the leftmost match starts. */
module SegmentName {
  import opened Common

  datatype SegmentName = SegmentName(brand: string, bitrate: string, sequence: string)

  /** The line terminators Java's `$` may precede at the end of the input. */
  predicate IsLineTerminator(c: char) {
    c == '\n' || c == '\r' || c == '\U{0085}' || c == '\U{2028}' || c == '\U{2029}'
  }

  predicate EndsWithTs(s: string) {
    |s| >= 3 && s[|s| - 3..] == ".ts"
  }

  predicate NoUnderscore(s: string) {
    forall i :: 0 <= i < |s| ==> s[i] != '_'
  }

  /** Where a match of the pattern can end: at the end of the input, or in
      front of one final line terminator ("\r\n" counting as one). */
  function MatchEnd(s: string): (e: Option<nat>)
    ensures e.Some? ==> e.value <= |s| && EndsWithTs(s[..e.value])
    ensures e.Some? ==>
      (|| e.value == |s|
       || (e.value == |s| - 1 && IsLineTerminator(s[|s| - 1]))
       || (e.value == |s| - 2 && s[|s| - 2..] == "\r\n"))
    ensures EndsWithTs(s) ==> e == Some(|s|)
  {
    if EndsWithTs(s) then Some(|s|)
    else if |s| >= 2 && s[|s| - 2..] == "\r\n" && EndsWithTs(s[..|s| - 2]) then Some(|s| - 2)
    else if |s| >= 1 && IsLineTerminator(s[|s| - 1]) && EndsWithTs(s[..|s| - 1]) then Some(|s| - 1)
    else None
  }

  /** Length of the longest suffix made only of digits. */
  function TrailingDigits(s: string): (n: nat)
    ensures n <= |s| && AllDigits(s[|s| - n..])
    ensures n < |s| ==> !IsDigit(s[|s| - n - 1])
  {
    if s == [] || !IsDigit(s[|s| - 1]) then 0
    else
      var m := TrailingDigits(s[..|s| - 1]);
      assert forall i :: |s| - 1 - m <= i < |s| - 1 ==> s[..|s| - 1][|s| - 1 - m..][i - (|s| - 1 - m)] == s[i];
      m + 1
  }

  /** Length of the longest suffix without an underscore. */
  function TrailingName(s: string): (n: nat)
    ensures n <= |s| && NoUnderscore(s[|s| - n..])
    ensures n < |s| ==> s[|s| - n - 1] == '_'
  {
    if s == [] || s[|s| - 1] == '_' then 0
    else
      var m := TrailingName(s[..|s| - 1]);
      assert forall i :: |s| - 1 - m <= i < |s| - 1 ==> s[..|s| - 1][|s| - 1 - m..][i - (|s| - 1 - m)] == s[i];
      m + 1
  }

  /** A string cut in two: what precedes a group, and the group. */
  datatype Split = Split(rest: string, part: string)

  /** The last `_<digits>` of a string: the digit group and what precedes
      its underscore, when the string ends in one. */
  function TakeNumber(s: string): Option<Split> {
    var n := TrailingDigits(s);
    if n == 0 || n == |s| || s[|s| - n - 1] != '_' then None
    else Some(Split(s[..|s| - n - 1], s[|s| - n..]))
  }

  /** The trailing run of non-underscore characters, when non-empty. */
  function TakeName(s: string): Option<Split> {
    var n := TrailingName(s);
    if n == 0 then None else Some(Split(s[..|s| - n], s[|s| - n..]))
  }

  /** The three groups read off the text before ".ts". */
  function ParseBody(body: string): Option<SegmentName> {
    match TakeNumber(body)
    case None => None
    case Some(sequence) =>
      match TakeNumber(sequence.rest)
      case None => None
      case Some(bitrate) =>
        match TakeName(bitrate.rest)
        case None => None
        case Some(brand) => Some(SegmentName(brand.part, bitrate.part, sequence.part))
  }

  /** The three groups of the first match, or None when find() fails. */
  function Parse(s: string): Option<SegmentName> {
    match MatchEnd(s)
    case None => None
    case Some(e) => ParseBody(s[..e - 3])
  }

  /** The shape a match has: a non-empty brand free of underscores, two
      non-empty digit runs, each separated by one underscore, then ".ts". */
  predicate WellShaped(n: SegmentName) {
    && n.brand != [] && NoUnderscore(n.brand)
    && n.bitrate != [] && AllDigits(n.bitrate)
    && n.sequence != [] && AllDigits(n.sequence)
  }

  function Render(n: SegmentName): string {
    n.brand + "_" + n.bitrate + "_" + n.sequence + ".ts"
  }

  /** A match starts either at the beginning or right after an underscore
      (a leftmost match cannot be extended to the left). */
  predicate LeftBoundary(prefix: string) {
    prefix == [] || prefix[|prefix| - 1] == '_'
  }

  lemma {:induction false} TrailingDigitsOfDigits(p: string, d: string)
    requires AllDigits(d)
    requires p == [] || !IsDigit(p[|p| - 1])
    ensures TrailingDigits(p + d) == |d|
    decreases |d|
  {
    if d == [] {
      assert p + d == p;
    } else {
      var s := p + d;
      assert s[..|s| - 1] == p + d[..|d| - 1];
      TrailingDigitsOfDigits(p, d[..|d| - 1]);
    }
  }

  lemma {:induction false} TrailingNameOfName(p: string, b: string)
    requires NoUnderscore(b)
    requires LeftBoundary(p)
    ensures TrailingName(p + b) == |b|
    decreases |b|
  {
    if b == [] {
      assert p + b == p;
    } else {
      var s := p + b;
      assert s[..|s| - 1] == p + b[..|b| - 1];
      TrailingNameOfName(p, b[..|b| - 1]);
    }
  }

  /** TakeNumber splits `p_d` at that underscore, and only such strings. */
  lemma TakeNumberSpec(p: string, d: string)
    ensures d != [] && AllDigits(d) ==> TakeNumber(p + "_" + d) == Some(Split(p, d))
    ensures TakeNumber(p).Some? ==>
      var sp := TakeNumber(p).value;
      sp.part != [] && AllDigits(sp.part) && p == sp.rest + "_" + sp.part
  {
    if d != [] && AllDigits(d) {
      TakeNumberOfNumber(p, d);
    }
    if TakeNumber(p).Some? {
      var n := TrailingDigits(p);
      assert p == p[..|p| - n - 1] + "_" + p[|p| - n..];
    }
  }

  lemma TakeNumberOfNumber(p: string, d: string)
    requires d != [] && AllDigits(d)
    ensures TakeNumber(p + "_" + d) == Some(Split(p, d))
  {
    var s := p + "_" + d;
    TrailingDigitsOfDigits(p + "_", d);
    assert s[|s| - |d| - 1] == '_';
    assert s[..|s| - |d| - 1] == p;
    assert s[|s| - |d|..] == d;
  }

  /** TakeName splits off a trailing underscore-free run at a left boundary,
      and only such a run. */
  lemma TakeNameSpec(p: string, b: string)
    ensures b != [] && NoUnderscore(b) && LeftBoundary(p) ==> TakeName(p + b) == Some(Split(p, b))
    ensures TakeName(p).Some? ==>
      var sp := TakeName(p).value;
      sp.part != [] && NoUnderscore(sp.part) && LeftBoundary(sp.rest) && p == sp.rest + sp.part
  {
    if b != [] && NoUnderscore(b) && LeftBoundary(p) {
      TrailingNameOfName(p, b);
      assert (p + b)[..|p + b| - |b|] == p;
      assert (p + b)[|p + b| - |b|..] == b;
    }
    if TakeName(p).Some? {
      var n := TrailingName(p);
      assert p == p[..|p| - n] + p[|p| - n..];
    }
  }

  /** Any well-shaped name, after an empty prefix or one ending in an
      underscore, is found by the pattern with exactly its three parts. */
  lemma ParseComplete(prefix: string, n: SegmentName)
    requires WellShaped(n) && LeftBoundary(prefix)
    ensures Parse(prefix + Render(n)) == Some(n)
  {
    var s := prefix + Render(n);
    var rest2 := prefix + n.brand;
    var rest1 := rest2 + "_" + n.bitrate;
    var body := rest1 + "_" + n.sequence;
    assert s == body + ".ts";
    assert EndsWithTs(s);
    assert s[..|s| - 3] == body;
    TakeNumberSpec(rest1, n.sequence);
    TakeNumberSpec(rest2, n.bitrate);
    TakeNameSpec(prefix, n.brand);
    assert ParseBody(body) == Some(n);
  }

  /** What ParseBody accepts is `prefix brand_bitrate_sequence` with the
      brand starting at a left boundary. */
  lemma ParseBodySound(body: string) returns (prefix: string)
    requires ParseBody(body).Some?
    ensures var n := ParseBody(body).value;
      && WellShaped(n) && LeftBoundary(prefix)
      && body == prefix + n.brand + "_" + n.bitrate + "_" + n.sequence
  {
    TakeNumberSpec(body, []);
    var sq := TakeNumber(body).value;
    TakeNumberSpec(sq.rest, []);
    var br := TakeNumber(sq.rest).value;
    TakeNameSpec(br.rest, []);
    var bd := TakeName(br.rest).value;
    prefix := bd.rest;
  }

  /** Whatever the pattern finds is a well-shaped name at a left boundary,
      followed by ".ts" where a match may end. */
  lemma ParseSound(s: string) returns (prefix: string)
    requires Parse(s).Some?
    ensures MatchEnd(s).Some? && MatchEnd(s).value >= 3
    ensures var n := Parse(s).value; var e := MatchEnd(s).value;
      && WellShaped(n) && LeftBoundary(prefix) && EndsWithTs(s[..e])
      && s[..e - 3] == prefix + n.brand + "_" + n.bitrate + "_" + n.sequence
  {
    prefix := ParseBodySound(s[..MatchEnd(s).value - 3]);
  }

  /** The file name the manifest writes for a segment. */
  function FileName(brand: string, bitrate: int, sequence: int): string {
    brand + "_" + IntToString(bitrate) + "_" + IntToString(sequence) + ".ts"
  }

  /** A manifest file name reads back as the brand and the two numbers, for
      a non-empty brand without underscores and numbers a long can hold. */
  lemma FileNameRoundTrip(brand: string, bitrate: int, sequence: int)
    requires brand != [] && NoUnderscore(brand)
    requires 0 <= bitrate <= LONG_MAX && 0 <= sequence <= LONG_MAX
    ensures Parse(FileName(brand, bitrate, sequence))
         == Some(SegmentName(brand, IntToString(bitrate), IntToString(sequence)))
    ensures ParseLong(IntToString(bitrate)) == Some(bitrate)
    ensures ParseLong(IntToString(sequence)) == Some(sequence)
  {
    var n := SegmentName(brand, IntToString(bitrate), IntToString(sequence));
    ParseComplete([], n);
    assert Render(n) == FileName(brand, bitrate, sequence);
    assert [] + Render(n) == Render(n);
    ParseLongOfNatToString(bitrate);
    ParseLongOfNatToString(sequence);
  }

  /** A manifest file name for a brand with an underscore is read with only
      the part after its last underscore as the brand group: the pattern's
      brand group cannot hold an underscore. */
  lemma MisreadUnderscoreBrand(p: string, b: string, bitrate: int, sequence: int)
    requires b != [] && NoUnderscore(b)
    requires 0 <= bitrate && 0 <= sequence
    ensures Parse(FileName(p + "_" + b, bitrate, sequence))
         == Some(SegmentName(b, IntToString(bitrate), IntToString(sequence)))
  {
    var n := SegmentName(b, IntToString(bitrate), IntToString(sequence));
    var q := p + "_";
    assert q + Render(n) == FileName(p + "_" + b, bitrate, sequence) by {
      PrependRender(q, b, "_", n.bitrate, "_", n.sequence, ".ts");
    }
    ParseComplete(q, n);
  }

  lemma PrependRender<T>(q: seq<T>, a: seq<T>, b: seq<T>, c: seq<T>, d: seq<T>, e: seq<T>, f: seq<T>)
    ensures q + (a + b + c + d + e + f) == (q + a) + b + c + d + e + f
  {
  }

  /** The reading the engine needs for its own file names: the two number
      groups split off from the right, and everything before them, underscores
      included, as the brand group (the pattern `(.+)_([0-9]+)_([0-9]+)\.ts$`
      read from the start of the name). */
  function ParseWhole(s: string): Option<SegmentName> {
    match MatchEnd(s)
    case None => None
    case Some(e) =>
      match TakeNumber(s[..e - 3])
      case None => None
      case Some(sequence) =>
        match TakeNumber(sequence.rest)
        case None => None
        case Some(bitrate) =>
          if bitrate.rest == [] then None
          else Some(SegmentName(bitrate.rest, bitrate.part, sequence.part))
  }

  /** With that reading, every manifest file name reads back as its brand
      and its two numbers, whatever the brand holds. */
  lemma FileNameRoundTripWhole(brand: string, bitrate: int, sequence: int)
    requires brand != []
    requires 0 <= bitrate && 0 <= sequence
    ensures ParseWhole(FileName(brand, bitrate, sequence))
         == Some(SegmentName(brand, IntToString(bitrate), IntToString(sequence)))
  {
    var b := IntToString(bitrate);
    var q := IntToString(sequence);
    var s := FileName(brand, bitrate, sequence);
    var rest := brand + "_" + b;
    var body := rest + "_" + q;
    assert s == body + ".ts";
    assert EndsWithTs(s);
    assert s[..|s| - 3] == body;
    TakeNumberOfNumber(rest, q);
    TakeNumberOfNumber(brand, b);
  }
}
