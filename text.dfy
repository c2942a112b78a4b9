/**
 * The PHP string operations the plugin relies on, written out over `string`:
 * `empty()` on strings, `strpos(...) === 0` / `!== false`, `trim`, `strtolower`,
 * the decimal rendering of integers used by `.` concatenation and `%d`,
 * `number_format($n, 0)` and `implode`.
 * Lengths count characters; PHP's `strlen` counts bytes, which agree for ASCII text.
 */
module Text {

  /** PHP `empty($s)` for a string (or a value that is null, modelled as ""): "" and "0" are empty. */
  predicate PhpEmpty(s: string) {
    s == "" || s == "0"
  }

  /** `strpos($s, $p) === 0`. */
  predicate StartsWith(s: string, p: string) {
    |p| <= |s| && s[..|p|] == p
  }

  /** `p` occurs in `s` starting at index `i`. */
  predicate OccursAt(s: string, p: string, i: int) {
    0 <= i && i + |p| <= |s| && s[i..i + |p|] == p
  }

  /** `strpos($s, $p) !== false`, scanning left to right. */
  predicate Contains(s: string, p: string)
    decreases |s|
  {
    StartsWith(s, p) || (|s| > 0 && Contains(s[1..], p))
  }

  /** The scan finds `p` exactly when `p` occurs at some index of `s`. */
  lemma {:induction false} ContainsIff(s: string, p: string)
    ensures Contains(s, p) <==> exists i :: OccursAt(s, p, i)
    decreases |s|
  {
    if |s| > 0 {
      ContainsIff(s[1..], p);
    }
    if Contains(s, p) {
      if StartsWith(s, p) {
        assert OccursAt(s, p, 0);
      } else {
        var i :| OccursAt(s[1..], p, i);
        assert s[1..][i..i + |p|] == s[i + 1..i + 1 + |p|];
        assert OccursAt(s, p, i + 1);
      }
    }
    forall i | OccursAt(s, p, i) ensures Contains(s, p) {
      if i > 0 {
        assert s[1..][i - 1..i - 1 + |p|] == s[i..i + |p|];
        assert OccursAt(s[1..], p, i - 1);
      }
    }
  }

  /** A needle longer than the haystack is never found. */
  lemma {:induction false} ShorterNeverContains(s: string, p: string)
    requires |s| < |p|
    ensures !Contains(s, p)
    decreases |s|
  {
    if |s| > 0 {
      ShorterNeverContains(s[1..], p);
    }
  }

  /** A string that starts with `p` contains it. */
  lemma StartsWithContains(s: string, p: string)
    requires StartsWith(s, p)
    ensures Contains(s, p)
  {
  }

  /** Prepending text never hides an occurrence. */
  lemma {:induction false} ContainsAfterPrefix(a: string, s: string, p: string)
    requires Contains(s, p)
    ensures Contains(a + s, p)
  {
    ContainsIff(s, p);
    var i :| OccursAt(s, p, i);
    assert (a + s)[|a| + i..|a| + i + |p|] == s[i..i + |p|];
    assert OccursAt(a + s, p, |a| + i);
    ContainsIff(a + s, p);
  }

  /** Two strings whose characters differ at a position shared with `p` cannot both start with `p`. */
  lemma PrefixMismatch(a: string, x: string, p: string, j: nat)
    requires j < |a| && j < |p| && a[j] != p[j]
    ensures !StartsWith(a + x, p)
  {
    assert (a + x)[j] == a[j];
  }

  predicate IsDigit(c: char) {
    '0' <= c <= '9'
  }

  predicate IsAlnum(c: char) {
    IsDigit(c) || 'a' <= c <= 'z' || 'A' <= c <= 'Z'
  }

  /** The characters PHP's `trim` strips by default: space, tab, LF, CR, NUL and vertical tab. */
  predicate IsTrimChar(c: char) {
    c == ' ' || c == '\t' || c == '\n' || c == '\r' || c == '\0' || c == '\U{0B}'
  }

  /** `s` without its leading trim characters, and nothing else removed. */
  function TrimLeft(s: string): (r: string)
    ensures |r| <= |s| && r == s[|s| - |r|..]
    ensures r == [] || !IsTrimChar(r[0])
    ensures forall j :: 0 <= j < |s| - |r| ==> IsTrimChar(s[j])
    decreases |s|
  {
    if |s| > 0 && IsTrimChar(s[0]) then
      var r := TrimLeft(s[1..]);
      assert forall j :: 1 <= j < |s| - |r| ==> s[j] == s[1..][j - 1];
      r
    else s
  }

  /** `s` without its trailing trim characters, and nothing else removed. */
  function TrimRight(s: string): (r: string)
    ensures |r| <= |s| && r == s[..|r|]
    ensures r == [] || !IsTrimChar(r[|r| - 1])
    ensures forall j :: |r| <= j < |s| ==> IsTrimChar(s[j])
    decreases |s|
  {
    if |s| > 0 && IsTrimChar(s[|s| - 1]) then
      var r := TrimRight(s[..|s| - 1]);
      assert forall j :: |r| <= j < |s| - 1 ==> s[j] == s[..|s| - 1][j];
      r
    else s
  }

  /** `r` sits at position `i` of `s`, and everything before and after it is a trim character. */
  predicate StrippedAt(s: string, r: string, i: int) {
    && OccursAt(s, r, i)
    && (forall j :: 0 <= j < i ==> IsTrimChar(s[j]))
    && (forall j :: i + |r| <= j < |s| ==> IsTrimChar(s[j]))
  }

  /**
   * PHP `trim($s)`: the part of `s` left once the trim characters at both ends are
   * removed; it neither starts nor ends with a trim character.
   */
  function Trim(s: string): (r: string)
    ensures |r| <= |s|
    ensures exists i :: StrippedAt(s, r, i)
    ensures r == [] || (!IsTrimChar(r[0]) && !IsTrimChar(r[|r| - 1]))
  {
    var l := TrimLeft(s);
    var r := TrimRight(l);
    StrippedParts(s, l, r);
    r
  }

  /** Cutting trim characters off the front of `s` (giving `l`) and then off the back of `l` (giving `r`) strips `s` to `r`. */
  lemma StrippedParts(s: string, l: string, r: string)
    requires |l| <= |s| && l == s[|s| - |l|..]
    requires forall j :: 0 <= j < |s| - |l| ==> IsTrimChar(s[j])
    requires |r| <= |l| && r == l[..|r|]
    requires forall k :: |r| <= k < |l| ==> IsTrimChar(l[k])
    ensures StrippedAt(s, r, |s| - |l|)
  {
    var i := |s| - |l|;
    forall k | 0 <= k < |r| ensures s[i..i + |r|][k] == r[k] {
      assert r[k] == l[k] == s[i + k];
    }
    assert s[i..i + |r|] == r;
    forall j | i + |r| <= j < |s| ensures IsTrimChar(s[j]) {
      assert s[j] == l[j - i];
    }
  }

  /** Trimming twice strips nothing more. */
  lemma TrimIdempotent(s: string)
    ensures Trim(Trim(s)) == Trim(s)
  {
  }

  /** ASCII `strtolower` on one character (PHP 8 lower-cases ASCII letters only). */
  function LowerChar(c: char): char {
    if 'A' <= c <= 'Z' then (c as int + 32) as char else c
  }

  function ToLower(s: string): (r: string)
    ensures |r| == |s|
    ensures forall i :: 0 <= i < |s| && !('A' <= s[i] <= 'Z') ==> r[i] == s[i]
    ensures forall i :: 0 <= i < |s| && 'A' <= s[i] <= 'Z' ==> r[i] as int == s[i] as int + 32
  {
    seq(|s|, i requires 0 <= i < |s| => LowerChar(s[i]))
  }

  /** Lower-casing leaves no upper-case ASCII letter and is idempotent. */
  lemma ToLowerProperties(s: string)
    ensures forall i :: 0 <= i < |s| ==> !('A' <= ToLower(s)[i] <= 'Z')
    ensures ToLower(ToLower(s)) == ToLower(s)
  {
  }

  function DigitChar(d: nat): (c: char)
    requires d < 10
    ensures IsDigit(c) && c as int - '0' as int == d
  {
    (d + '0' as int) as char
  }

  /** The decimal digits of `n`, as PHP prints an integer. */
  function NatToDecimal(n: nat): (r: string)
    ensures |r| >= 1
    ensures forall i :: 0 <= i < |r| ==> IsDigit(r[i])
    decreases n
  {
    if n < 10 then [DigitChar(n)] else NatToDecimal(n / 10) + [DigitChar(n % 10)]
  }

  /** Reads a string of decimal digits back as a number. */
  function DecimalValue(s: string): nat
    requires forall i :: 0 <= i < |s| ==> IsDigit(s[i])
  {
    if s == [] then 0
    else
      assert IsDigit(s[|s| - 1]);
      DecimalValue(s[..|s| - 1]) * 10 + (s[|s| - 1] as int - '0' as int)
  }

  /** Printing a number in decimal and reading it back gives the number: the rendering is injective. */
  lemma {:induction false} DecimalRoundTrip(n: nat)
    ensures DecimalValue(NatToDecimal(n)) == n
    decreases n
  {
    if n >= 10 {
      var r := NatToDecimal(n);
      assert r[..|r| - 1] == NatToDecimal(n / 10);
      DecimalRoundTrip(n / 10);
    }
  }

  /** PHP's rendering of an integer (`'x' . $n`, `%d`): a minus sign before negative numbers. */
  function IntToDecimal(n: int): (r: string)
    ensures n >= 0 ==> r == NatToDecimal(n)
    ensures n < 0 ==> r == "-" + NatToDecimal(-n)
  {
    if n < 0 then "-" + NatToDecimal(-n) else NatToDecimal(n)
  }

  /** Different integers print differently. */
  lemma IntToDecimalInjective(a: int, b: int)
    requires IntToDecimal(a) == IntToDecimal(b)
    ensures a == b
  {
    var r := IntToDecimal(a);
    // The first character is the sign exactly for negative numbers, a digit otherwise.
    if a < 0 { assert r[0] == '-'; } else { assert IsDigit(r[0]); }
    if b < 0 { assert r[0] == '-'; } else { assert IsDigit(r[0]); }
    if a < 0 {
      SignedDigits(-a);
      SignedDigits(-b);
      NatToDecimalInjective(-a, -b);
    } else {
      NatToDecimalInjective(a, b);
    }
  }

  lemma SignedDigits(n: nat)
    ensures ("-" + NatToDecimal(n))[1..] == NatToDecimal(n)
  {
  }

  lemma NatToDecimalInjective(x: nat, y: nat)
    requires NatToDecimal(x) == NatToDecimal(y)
    ensures x == y
  {
    DecimalRoundTrip(x);
    DecimalRoundTrip(y);
  }

  function ThreeDigits(n: nat): (r: string)
    requires n < 1000
    ensures |r| == 3
  {
    [DigitChar(n / 100), DigitChar(n / 10 % 10), DigitChar(n % 10)]
  }

  /** PHP `number_format($n, 0)`: decimal digits grouped by three with commas. */
  function GroupedDecimal(n: nat): (r: string)
    ensures |r| >= 1 && IsDigit(r[0])
    decreases n
  {
    if n < 1000 then NatToDecimal(n) else GroupedDecimal(n / 1000) + "," + ThreeDigits(n % 1000)
  }

  /** Removing the thousands separators gives a digit string of the same value. */
  function StripCommas(s: string): string {
    if s == [] then [] else StripCommas(s[..|s| - 1]) + (if s[|s| - 1] == ',' then [] else [s[|s| - 1]])
  }

  lemma {:induction false} StripCommasConcat(a: string, b: string)
    ensures StripCommas(a + b) == StripCommas(a) + StripCommas(b)
    decreases |b|
  {
    if b != [] {
      assert (a + b)[..|a + b| - 1] == a + b[..|b| - 1];
      StripCommasConcat(a, b[..|b| - 1]);
    } else {
      assert a + b == a;
    }
  }

  lemma {:induction false} NoCommaDigits(s: string)
    requires forall i :: 0 <= i < |s| ==> IsDigit(s[i])
    ensures StripCommas(s) == s
  {
    if s != [] {
      NoCommaDigits(s[..|s| - 1]);
      assert s[..|s| - 1] + [s[|s| - 1]] == s;
    }
  }

  /** Appending three digits multiplies the value read so far by a thousand. */
  lemma AppendThreeDigits(s: string, lo: string)
    requires forall i :: 0 <= i < |s| ==> IsDigit(s[i])
    requires |lo| == 3 && forall i :: 0 <= i < 3 ==> IsDigit(lo[i])
    ensures forall i :: 0 <= i < |s + lo| ==> IsDigit((s + lo)[i])
    ensures DecimalValue(s + lo) == DecimalValue(s) * 1000 + DecimalValue(lo)
  {
    var v := DecimalValue(s);
    assert (s + lo)[..|s| + 2] == s + lo[..2];
    assert (s + lo[..2])[..|s| + 1] == s + lo[..1];
    assert (s + lo[..1])[..|s|] == s;
    assert lo[..2][..1] == lo[..1] && lo[..1][..0] == [];
    var d0, d1, d2 := lo[0] as int - '0' as int, lo[1] as int - '0' as int, lo[2] as int - '0' as int;
    assert DecimalValue(s + lo[..1]) == v * 10 + d0;
    assert DecimalValue(s + lo[..2]) == v * 100 + d0 * 10 + d1;
    assert DecimalValue(lo[..1]) == d0;
    assert DecimalValue(lo[..2]) == d0 * 10 + d1;
    assert lo[..3] == lo;
    assert DecimalValue(lo) == d0 * 100 + d1 * 10 + d2;
  }

  lemma ThreeDigitsValue(k: nat)
    requires k < 1000
    ensures DecimalValue(ThreeDigits(k)) == k
  {
    var lo := ThreeDigits(k);
    assert lo[..2][..1] == lo[..1] && lo[..1][..0] == [] && lo[..3] == lo;
    assert DecimalValue(lo[..1]) == k / 100;
    assert DecimalValue(lo[..2]) == k / 100 * 10 + k / 10 % 10;
  }

  /** `number_format($n, 0)` shows the value `n`: its digits, commas removed, read back as `n`. */
  lemma {:induction false} GroupedDecimalValue(n: nat)
    ensures forall i :: 0 <= i < |StripCommas(GroupedDecimal(n))| ==> IsDigit(StripCommas(GroupedDecimal(n))[i])
    ensures DecimalValue(StripCommas(GroupedDecimal(n))) == n
    decreases n
  {
    if n < 1000 {
      NoCommaDigits(NatToDecimal(n));
      DecimalRoundTrip(n);
    } else {
      var hi := GroupedDecimal(n / 1000);
      var lo := ThreeDigits(n % 1000);
      GroupedDecimalValue(n / 1000);
      StripCommasConcat(hi + ",", lo);
      StripCommasConcat(hi, ",");
      assert StripCommas(",") == [];
      NoCommaDigits(lo);
      assert StripCommas(GroupedDecimal(n)) == StripCommas(hi) + lo;
      AppendThreeDigits(StripCommas(hi), lo);
      ThreeDigitsValue(n % 1000);
    }
  }

  /** PHP `implode($sep, $parts)`. */
  function Join(parts: seq<string>, sep: string): string {
    if parts == [] then "" else if |parts| == 1 then parts[0] else parts[0] + sep + Join(parts[1..], sep)
  }

  /** Index of the first `c` in `s`, or `|s|` when there is none. */
  function IndexOfChar(s: string, c: char): (k: nat)
    ensures k <= |s|
    ensures k < |s| ==> s[k] == c
    ensures forall i :: 0 <= i < k ==> s[i] != c
  {
    if s == [] || s[0] == c then 0 else 1 + IndexOfChar(s[1..], c)
  }

  /** PHP `explode($c, $s)` for a one-character separator. */
  function Split(s: string, c: char): (r: seq<string>)
    ensures |r| >= 1 && StartsWith(s, r[0])
    ensures |r| == 1 <==> c !in s
    ensures forall i :: 0 <= i < |r| ==> c !in r[i]
    decreases |s|
  {
    var k := IndexOfChar(s, c);
    if k == |s| then
      assert forall i :: 0 <= i < |s| ==> s[i] != c;
      [s]
    else
      assert forall i :: 0 <= i < k ==> s[..k][i] != c;
      [s[..k]] + Split(s[k + 1..], c)
  }

  lemma IndexOfCharAfter(p: string, c: char, t: string)
    requires c !in p
    ensures IndexOfChar(p + [c] + t, c) == |p|
  {
    var s := p + [c] + t;
    var k := IndexOfChar(s, c);
    assert s[|p|] == c;
    assert forall i :: 0 <= i < |p| ==> s[i] == p[i];
  }

  /** Splitting lines joined with a separator that none of them contains gives the lines back. */
  lemma {:induction false} SplitJoin(parts: seq<string>, c: char)
    requires |parts| >= 1
    requires forall i :: 0 <= i < |parts| ==> c !in parts[i]
    ensures Split(Join(parts, [c]), c) == parts
    decreases |parts|
  {
    if |parts| == 1 {
      assert Join(parts, [c]) == parts[0];
      assert forall i :: 0 <= i < |parts[0]| ==> parts[0][i] != c;
    } else {
      var p, t := parts[0], Join(parts[1..], [c]);
      var s := p + [c] + t;
      assert Join(parts, [c]) == s;
      IndexOfCharAfter(p, c, t);
      assert s[..|p|] == p;
      assert s[|p| + 1..] == t;
      assert Split(s, c) == [p] + Split(t, c);
      SplitJoin(parts[1..], c);
      assert parts == [p] + parts[1..];
    }
  }
}
