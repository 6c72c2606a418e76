/** Stand-ins for the two text utilities the client relies on: `util::split`
    and `util::fromString<UInt32>`. Neither is part of this model's source, so
    both are defined here explicitly, together with the decimal rendering that
    `ostringstream << port` performs. */
module StringUtil {

  type uint16 = x: int | 0 <= x < 0x1_0000
  type uint32 = x: int | 0 <= x < 0x1_0000_0000

  const UINT32_MAX: uint32 := 0xFFFF_FFFF

  function Min(a: int, b: int): int { if a <= b then a else b }

  // ---------------------------------------------------------------------------
  // Splitting on a separator character
  // ---------------------------------------------------------------------------

  /** Index of the first occurrence of `c` in `s`, or `|s|` when there is none. */
  function Find(s: string, c: char): (i: nat)
    ensures i <= |s|
    ensures forall j :: 0 <= j < i ==> s[j] != c
    ensures i < |s| ==> s[i] == c
  {
    if s == [] then 0
    else if s[0] == c then 0
    else
      assert s == [s[0]] + s[1..];
      1 + Find(s[1..], c)
  }

  /** Finding in a concatenation whose first part does not hold the character. */
  lemma {:induction false} FindConcat(a: string, b: string, c: char)
    requires c !in a
    ensures Find(a + b, c) == |a| + Find(b, c)
  {
    if a == [] {
      assert a + b == b;
    } else {
      var ab := a + b;
      assert ab[0] == a[0] != c;
      assert ab[1..] == a[1..] + b;
      assert c !in a[1..] by {
        forall j | 0 <= j < |a[1..]| ensures a[1..][j] != c { assert a[1..][j] == a[j + 1]; }
      }
      FindConcat(a[1..], b, c);
      assert Find(ab, c) == 1 + Find(ab[1..], c);
    }
  }

  /** Cutting `p + [sep] + t` at its first separator gives back `p` and `t`. */
  lemma CutAtFirst(p: string, t: string, sep: char)
    requires sep !in p
    ensures var s := p + [sep] + t;
      Find(s, sep) == |p| && s[..|p|] == p && s[|p| + 1..] == t
  {
    var s := p + [sep] + t;
    assert s == p + ([sep] + t);
    FindConcat(p, [sep] + t, sep);
    assert s[..|p|] == p;
    assert s[|p| + 1..] == t;
  }

  /** Cutting `p + [sep] + t` at its last separator gives back `p` and `t`,
      whatever `p` holds, when `t` has no separator. */
  lemma CutAtLast(p1: string, t1: string, p2: string, t2: string, sep: char)
    requires sep !in t1 && sep !in t2
    requires p1 + [sep] + t1 == p2 + [sep] + t2
    ensures p1 == p2 && t1 == t2
  {
    var u := p1 + [sep] + t1;
    assert u[|p1|] == sep && u[|p2|] == sep;
    if |p1| < |p2| {
      assert false;
    } else if |p2| < |p1| {
      assert false;
    }
    assert p1 == u[..|p1|] && p2 == u[..|p2|];
    assert t1 == u[|p1| + 1..] && t2 == u[|p2| + 1..];
  }

  /** The pieces written back with one separator between neighbours. */
  function Join(pieces: seq<string>, sep: char): string
  {
    if |pieces| == 0 then ""
    else if |pieces| == 1 then pieces[0]
    else pieces[0] + [sep] + Join(pieces[1..], sep)
  }

  /** Split at every occurrence of `sep`; empty pieces are kept, so a string
      with n separators gives n + 1 pieces (the unlimited `util::split`). */
  function SplitAll(s: string, sep: char): (r: seq<string>)
    ensures |r| >= 1
    ensures forall k :: 0 <= k < |r| ==> sep !in r[k]
    ensures Join(r, sep) == s
    decreases |s|
  {
    var i := Find(s, sep);
    if i == |s| then [s]
    else
      var rest := SplitAll(s[i + 1..], sep);
      var r := [s[..i]] + rest;
      assert r[1..] == rest;
      assert s == s[..i] + [sep] + s[i + 1..];
      r
  }

  /** Splitting a string that starts with a separator-free piece and a
      separator cuts that piece off first. */
  lemma SplitAllCons(p: string, t: string, sep: char)
    requires sep !in p
    ensures SplitAll(p + [sep] + t, sep) == [p] + SplitAll(t, sep)
  {
    CutAtFirst(p, t, sep);
  }

  /** Splitting undoes joining: pieces free of the separator come back unchanged. */
  lemma {:induction false} SplitAllOfJoin(pieces: seq<string>, sep: char)
    requires |pieces| >= 1
    requires forall k :: 0 <= k < |pieces| ==> sep !in pieces[k]
    ensures SplitAll(Join(pieces, sep), sep) == pieces
  {
    var p0 := pieces[0];
    if |pieces| == 1 {
      assert Find(p0, sep) == |p0|;
    } else {
      var rest := pieces[1..];
      assert Join(pieces, sep) == p0 + [sep] + Join(rest, sep);
      SplitAllCons(p0, Join(rest, sep), sep);
      forall k | 0 <= k < |rest| ensures sep !in rest[k] { assert rest[k] == pieces[k + 1]; }
      SplitAllOfJoin(rest, sep);
      assert pieces == [p0] + rest;
    }
  }

  /** `util::split(s, sep, limit)`: at most `limit` pieces; once `limit - 1`
      pieces are cut, the remainder is kept unsplit in the last piece. */
  function SplitN(s: string, sep: char, limit: nat): (r: seq<string>)
    requires limit >= 1
    ensures 1 <= |r| <= limit
    ensures forall k :: 0 <= k < |r| - 1 ==> sep !in r[k]
    ensures |r| < limit ==> sep !in r[|r| - 1]
    ensures Join(r, sep) == s
    decreases |s|
  {
    var i := Find(s, sep);
    if limit == 1 || i == |s| then [s]
    else
      var rest := SplitN(s[i + 1..], sep, limit - 1);
      var r := [s[..i]] + rest;
      assert r[1..] == rest;
      assert s == s[..i] + [sep] + s[i + 1..];
      r
  }

  /** Splitting a string that starts with a separator-free piece and a
      separator cuts that piece off first. */
  lemma SplitNCons(p: string, t: string, sep: char, limit: nat)
    requires sep !in p && limit >= 2
    ensures SplitN(p + [sep] + t, sep, limit) == [p] + SplitN(t, sep, limit - 1)
  {
    CutAtFirst(p, t, sep);
  }

  // ---------------------------------------------------------------------------
  // Decimal numerals
  // ---------------------------------------------------------------------------

  predicate IsDigit(c: char) { '0' <= c <= '9' }

  predicate IsDigits(s: string) { forall i :: 0 <= i < |s| ==> IsDigit(s[i]) }

  function DigitValue(c: char): nat
    requires IsDigit(c)
  {
    c as int - '0' as int
  }

  function DigitChar(d: nat): char
    requires d < 10
  {
    ('0' as int + d) as char
  }

  /** The number a string of decimal digits denotes (most significant first). */
  function DecimalValue(s: string): nat
    requires IsDigits(s)
    decreases |s|
  {
    if s == [] then 0 else 10 * DecimalValue(s[..|s| - 1]) + DigitValue(s[|s| - 1])
  }

  /** The decimal numeral of `n` as a stream insertion writes it: digits only,
      no leading zero, denoting `n`. */
  function ToDecimal(n: nat): (s: string)
    ensures |s| >= 1 && IsDigits(s)
    ensures s[0] == '0' ==> s == "0"
    ensures DecimalValue(s) == n
  {
    if n < 10 then
      assert DigitValue(DigitChar(n)) == n;
      [DigitChar(n)]
    else
      var hi := ToDecimal(n / 10);
      var s := hi + [DigitChar(n % 10)];
      assert s[..|s| - 1] == hi;
      assert s[0] == hi[0];
      assert DigitValue(DigitChar(n % 10)) == n % 10;
      s
  }

  /** `util::fromString<UInt32>`: a non-empty digit string reads as its value,
      saturated at the largest UInt32; any other text reads as 0. */
  function FromString(s: string): uint32
  {
    if s != [] && IsDigits(s) then Min(DecimalValue(s), UINT32_MAX) else 0
  }

  /** Reading back a rendered 32-bit number gives the number. */
  lemma FromStringOfDecimal(n: uint32)
    ensures FromString(ToDecimal(n)) == n
  {
  }
}
