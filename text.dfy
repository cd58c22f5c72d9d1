/**
 * Python string behaviour the core relies on: `str.isspace`, `str.strip`,
 * `sep.join(parts)`, `str(n)` for integers and the `:,` format specifier.
 */
module Text {

  /** Python's `str.isspace` on one character (the full set of Unicode whitespace Python uses). */
  predicate IsSpace(c: char) {
    c == ' ' || ('\t' <= c <= '\r') || ('\U{1C}' <= c <= '\U{1F}')
    || c == '\U{85}' || c == '\U{A0}' || c == '\U{1680}'
    || ('\U{2000}' <= c <= '\U{200A}') || c == '\U{2028}' || c == '\U{2029}'
    || c == '\U{202F}' || c == '\U{205F}' || c == '\U{3000}'
  }

  predicate AllSpace(s: string) {
    forall k :: 0 <= k < |s| ==> IsSpace(s[k])
  }

  /** Python's `s.strip()`: whitespace removed from both ends. */
  function Strip(s: string): string
    decreases |s|
  {
    if |s| == 0 then s
    else if IsSpace(s[0]) then Strip(s[1..])
    else if IsSpace(s[|s| - 1]) then Strip(s[..|s| - 1])
    else s
  }

  /** How many leading characters `s.strip()` drops. */
  function StripOffset(s: string): nat
    decreases |s|
  {
    if |s| == 0 then 0
    else if IsSpace(s[0]) then 1 + StripOffset(s[1..])
    else if IsSpace(s[|s| - 1]) then StripOffset(s[..|s| - 1])
    else 0
  }

  /** `s.strip()` is empty exactly when `s` is whitespace only. */
  lemma {:induction false} StripEmpty(s: string)
    ensures Strip(s) == [] <==> AllSpace(s)
    decreases |s|
  {
    if |s| > 0 && IsSpace(s[0]) {
      StripEmpty(s[1..]);
      assert AllSpace(s) <==> AllSpace(s[1..]) by {
        assert forall k :: 0 < k < |s| ==> s[k] == s[1..][k - 1];
      }
    } else if |s| > 0 && IsSpace(s[|s| - 1]) {
      StripEmpty(s[..|s| - 1]);
      assert AllSpace(s) <==> AllSpace(s[..|s| - 1]) by {
        assert forall k :: 0 <= k < |s| - 1 ==> s[k] == s[..|s| - 1][k];
      }
    }
  }

  /** A non-empty `s.strip()` neither starts nor ends with whitespace. */
  lemma {:induction false} StripEnds(s: string)
    ensures var r := Strip(s); r != [] ==> !IsSpace(r[0]) && !IsSpace(r[|r| - 1])
    decreases |s|
  {
    if |s| > 0 && IsSpace(s[0]) {
      StripEnds(s[1..]);
    } else if |s| > 0 && IsSpace(s[|s| - 1]) {
      StripEnds(s[..|s| - 1]);
    }
  }

  /** `s.strip()` is the slice of `s` after its leading whitespace. */
  lemma {:induction false} StripSlice(s: string)
    ensures StripOffset(s) + |Strip(s)| <= |s|
    ensures Strip(s) == s[StripOffset(s)..StripOffset(s) + |Strip(s)|]
    decreases |s|
  {
    if |s| > 0 && IsSpace(s[0]) {
      StripSlice(s[1..]);
    } else if |s| > 0 && IsSpace(s[|s| - 1]) {
      StripSlice(s[..|s| - 1]);
    }
  }

  /** `not s.strip()`: the string is empty or whitespace only. */
  predicate IsBlank(s: string) {
    Strip(s) == []
  }

  /** Python's `sep.join(parts)`. */
  function Join(sep: string, parts: seq<string>): string {
    if |parts| == 0 then ""
    else if |parts| == 1 then parts[0]
    else Join(sep, parts[..|parts| - 1]) + sep + parts[|parts| - 1]
  }

  lemma SnocAssoc(a: seq<string>, b: seq<string>, x: string)
    ensures (a + b) + [x] == a + (b + [x])
  {
  }

  lemma SeqAssoc(a: seq<string>, b: seq<string>, c: seq<string>)
    ensures (a + b) + c == a + (b + c)
  {
  }

  lemma JoinSnoc(sep: string, parts: seq<string>, p: string)
    requires |parts| > 0
    ensures Join(sep, parts + [p]) == Join(sep, parts) + sep + p
  {
    assert (parts + [p])[..|parts|] == parts;
  }

  /** Joining from the front: the first part, the separator, then the rest joined. */
  lemma {:induction false} JoinCons(sep: string, p: string, rest: seq<string>)
    requires |rest| > 0
    ensures Join(sep, [p] + rest) == p + sep + Join(sep, rest)
    decreases |rest|
  {
    var ps := [p] + rest;
    if |rest| == 1 {
      assert ps[..1] == [p];
    } else {
      var front := rest[..|rest| - 1];
      assert ps[..|ps| - 1] == [p] + front;
      JoinCons(sep, p, front);
      assert rest == front + [rest[|rest| - 1]];
      JoinSnoc(sep, front, rest[|rest| - 1]);
    }
  }

  /** A join starts with its first part. */
  lemma {:induction false} JoinStartsWithFirst(sep: string, parts: seq<string>)
    requires |parts| > 0
    ensures |parts[0]| <= |Join(sep, parts)| && Join(sep, parts)[..|parts[0]|] == parts[0]
  {
    if |parts| > 1 {
      var front := parts[..|parts| - 1];
      JoinStartsWithFirst(sep, front);
      var j := Join(sep, front);
      assert Join(sep, parts) == j + (sep + parts[|parts| - 1]);
      assert (j + (sep + parts[|parts| - 1]))[..|parts[0]|] == j[..|parts[0]|];
    }
  }

  predicate OccursAt(p: string, s: string, k: nat) {
    k + |p| <= |s| && s[k..k + |p|] == p
  }

  /** `p in s` for strings: `p` occurs in `s` at some offset. */
  ghost predicate Occurs(p: string, s: string) {
    exists k: nat :: k <= |s| && OccursAt(p, s, k)
  }

  /** Every part occurs in the joined text. */
  lemma {:induction false} JoinHasPart(sep: string, parts: seq<string>, i: nat)
    requires i < |parts|
    ensures Occurs(parts[i], Join(sep, parts))
  {
    var p := parts[i];
    if |parts| == 1 {
      assert OccursAt(p, Join(sep, parts), 0);
    } else {
      var front := parts[..|parts| - 1];
      var j := Join(sep, front);
      var whole := j + (sep + parts[|parts| - 1]);
      assert Join(sep, parts) == whole;
      if i == |parts| - 1 {
        var k := |j| + |sep|;
        assert whole[k..k + |p|] == p;
        assert OccursAt(p, whole, k);
      } else {
        assert front[i] == p;
        JoinHasPart(sep, front, i);
        var k: nat :| k <= |j| && OccursAt(p, j, k);
        assert k + |p| <= |j| && j[k..k + |p|] == p;
        assert whole[k..k + |p|] == j[k..k + |p|];
        assert OccursAt(p, whole, k);
      }
    }
  }

  /** `str.startswith` */
  predicate StartsWith(s: string, prefix: string) {
    |prefix| <= |s| && s[..|prefix|] == prefix
  }

  predicate Contains(s: string, c: char) {
    exists k :: 0 <= k < |s| && s[k] == c
  }

  /** Python's `s.rfind(c)` for one character: the last index holding `c`, or -1. */
  function RFind(s: string, c: char): (r: int)
    ensures -1 <= r < |s|
    ensures r >= 0 ==> s[r] == c
  {
    if |s| == 0 then -1
    else if s[|s| - 1] == c then |s| - 1
    else RFind(s[..|s| - 1], c)
  }

  /** No occurrence of `c` follows the index `s.rfind(c)` reports. */
  lemma {:induction false} RFindLast(s: string, c: char)
    ensures forall k :: RFind(s, c) < k < |s| ==> s[k] != c
  {
    if |s| > 0 && s[|s| - 1] != c {
      var front := s[..|s| - 1];
      RFindLast(front, c);
      assert forall k :: 0 <= k < |front| ==> front[k] == s[k];
    }
  }

  // ---------------------------------------------------------------------------
  // Integers as text

  predicate IsDigit(c: char) {
    '0' <= c <= '9'
  }

  predicate AllDigits(s: string) {
    forall k :: 0 <= k < |s| ==> IsDigit(s[k])
  }

  function DigitChar(d: nat): (c: char)
    requires d < 10
    ensures IsDigit(c)
  {
    (('0' as int) + d) as char
  }

  function DigitValue(c: char): (d: nat)
    requires IsDigit(c)
    ensures d < 10
  {
    (c as int) - ('0' as int)
  }

  /** `str(n)` for a non-negative integer. */
  function Decimal(n: nat): (r: string)
    ensures |r| >= 1
  {
    if n < 10 then [DigitChar(n)] else Decimal(n / 10) + [DigitChar(n % 10)]
  }

  /** The numeral is made of digits, with a leading zero only for zero itself. */
  lemma {:induction false} DecimalDigits(n: nat)
    ensures AllDigits(Decimal(n))
    ensures Decimal(n)[0] == '0' ==> n == 0
  {
    if n >= 10 {
      DecimalDigits(n / 10);
    }
  }

  /** `str(i)` for any integer. */
  function IntText(i: int): string {
    if i < 0 then "-" + Decimal(-i) else Decimal(i)
  }

  /** The value of a string of decimal digits (Python's `int(s)` on such a string). */
  function ParseDecimal(s: string): nat
    requires AllDigits(s)
  {
    if |s| == 0 then 0 else 10 * ParseDecimal(s[..|s| - 1]) + DigitValue(s[|s| - 1])
  }

  lemma {:induction false} ParseDecimalOfDecimal(n: nat)
    ensures AllDigits(Decimal(n)) && ParseDecimal(Decimal(n)) == n
  {
    DecimalDigits(n);
    if n >= 10 {
      var s := Decimal(n);
      assert s[..|s| - 1] == Decimal(n / 10);
      ParseDecimalOfDecimal(n / 10);
    }
  }

  /** Three digits, zero padded: the groups after the first in `f"{n:,}"`. */
  function Pad3(m: nat): (r: string)
    requires m < 1000
    ensures |r| == 3 && AllDigits(r)
  {
    [DigitChar(m / 100), DigitChar(m / 10 % 10), DigitChar(m % 10)]
  }

  /** `f"{n:,}"` for a non-negative integer: digits grouped by three with commas. */
  function Grouped(n: nat): string {
    if n < 1000 then Decimal(n) else Grouped(n / 1000) + "," + Pad3(n % 1000)
  }

  /** `f"${v:,}"`, the way the seed script renders money amounts. */
  function Money(v: int): string {
    "$" + (if v < 0 then "-" + Grouped(-v) else Grouped(v))
  }

  function RemoveCommas(s: string): string {
    if |s| == 0 then ""
    else (if s[0] == ',' then "" else [s[0]]) + RemoveCommas(s[1..])
  }

  lemma {:induction false} RemoveCommasAppend(a: string, b: string)
    ensures RemoveCommas(a + b) == RemoveCommas(a) + RemoveCommas(b)
    decreases |a|
  {
    if |a| > 0 {
      assert (a + b)[1..] == a[1..] + b;
      RemoveCommasAppend(a[1..], b);
    } else {
      assert a + b == b;
    }
  }

  lemma RemoveCommasDigits(s: string)
    requires AllDigits(s)
    ensures RemoveCommas(s) == s
  {
    if |s| > 0 {
      RemoveCommasDigits(s[1..]);
    }
  }

  lemma DigitsOf(n: nat)
    ensures var a, b := n / 10, n / 100;
            && b == a / 10 && n / 1000 == b / 10
            && n % 1000 / 100 == b % 10 && n % 1000 / 10 % 10 == a % 10 && n % 1000 % 10 == n % 10
  {
  }

  /** The last three digits of `str(n)` split off. */
  lemma DecimalSplit3(n: nat)
    requires n >= 1000
    ensures Decimal(n) == Decimal(n / 1000) + Pad3(n % 1000)
  {
    DigitsOf(n);
    var a := n / 10;
    var b := a / 10;
    assert Decimal(n) == Decimal(a) + [DigitChar(n % 10)];
    assert Decimal(a) == Decimal(b) + [DigitChar(a % 10)];
    assert Decimal(b) == Decimal(b / 10) + [DigitChar(b % 10)];
  }

  /** Deleting the commas of `f"{n:,}"` gives back `str(n)`. */
  lemma {:induction false} GroupedWithoutCommas(n: nat)
    ensures RemoveCommas(Grouped(n)) == Decimal(n)
  {
    if n < 1000 {
      DecimalDigits(n);
      RemoveCommasDigits(Decimal(n));
    } else {
      GroupedWithoutCommas(n / 1000);
      RemoveCommasAppend(Grouped(n / 1000) + ",", Pad3(n % 1000));
      RemoveCommasAppend(Grouped(n / 1000), ",");
      RemoveCommasDigits(Pad3(n % 1000));
      DecimalSplit3(n);
    }
  }

  /** So the grouped rendering reads back as the amount it renders. */
  lemma GroupedReadsBack(n: nat)
    ensures AllDigits(RemoveCommas(Grouped(n)))
    ensures ParseDecimal(RemoveCommas(Grouped(n))) == n
  {
    GroupedWithoutCommas(n);
    ParseDecimalOfDecimal(n);
  }

  /** A money amount reads back from its rendering: after the `$` (and the `-` of a
      negative amount), the digits without commas are the amount's magnitude. */
  lemma MoneyReadsBack(v: int)
    ensures |Money(v)| >= 2 && Money(v)[0] == '$'
    ensures v >= 0 ==> AllDigits(RemoveCommas(Money(v)[1..])) && ParseDecimal(RemoveCommas(Money(v)[1..])) == v
    ensures v < 0 ==> Money(v)[1] == '-' && AllDigits(RemoveCommas(Money(v)[2..]))
                      && ParseDecimal(RemoveCommas(Money(v)[2..])) == -v
  {
    if v >= 0 {
      assert Money(v)[1..] == Grouped(v);
      GroupedReadsBack(v);
      GroupedWithoutCommas(v);
    } else {
      assert Money(v)[2..] == Grouped(-v);
      GroupedReadsBack(-v);
      GroupedWithoutCommas(-v);
    }
  }
}
