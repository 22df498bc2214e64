// The parts of Go's `strings` and `strconv` packages that the handlers rely on:
// strings.TrimSpace, strings.HasPrefix, strings.Split with a one-character
// separator, strconv.FormatInt(_, 10) and strconv.ParseInt(_, 10, 64).
// A Go string that came out of a decoded JSON update is valid UTF-8, so a
// Dafny `string` (a sequence of Unicode scalar values) is its `[]rune` view and
// `len([]rune(s))` is `|s|`.
module GoStrings {

  const MaxUint64: int := 0xFFFF_FFFF_FFFF_FFFF
  /** 1 << 63: one more than the largest int64, and minus the smallest. */
  const Cutoff: int := 0x8000_0000_0000_0000

  predicate IsInt64(i: int) {
    -Cutoff <= i < Cutoff
  }

  // ---------------------------------------------------------------- TrimSpace

  /** unicode.IsSpace: the Latin-1 spaces plus the White_Space code points above U+00FF. */
  predicate IsSpace(c: char) {
    || c == '\t' || c == '\n' || c == '\U{000B}' || c == '\U{000C}' || c == '\r' || c == ' '
    || c == '\U{0085}' || c == '\U{00A0}' || c == '\U{1680}'
    || ('\U{2000}' <= c <= '\U{200A}')
    || c == '\U{2028}' || c == '\U{2029}' || c == '\U{202F}' || c == '\U{205F}' || c == '\U{3000}'
  }

  /** Drops leading white space: the result is the suffix that starts at the first non-space. */
  function TrimLeft(s: string): (r: string)
    ensures |r| <= |s| && r == s[|s| - |r|..]
    ensures forall i :: 0 <= i < |s| - |r| ==> IsSpace(s[i])
    ensures r != [] ==> !IsSpace(r[0])
  {
    if |s| > 0 && IsSpace(s[0]) then TrimLeft(s[1..]) else s
  }

  /** Drops trailing white space: the result is the prefix that ends at the last non-space. */
  function TrimRight(s: string): (r: string)
    ensures |r| <= |s| && r == s[..|r|]
    ensures forall i :: |r| <= i < |s| ==> IsSpace(s[i])
    ensures r != [] ==> !IsSpace(r[|r| - 1])
  {
    if |s| > 0 && IsSpace(s[|s| - 1]) then TrimRight(s[..|s| - 1]) else s
  }

  /** strings.TrimSpace: the slice of `s` left once the white space at both ends is cut off. */
  function TrimSpace(s: string): (r: string)
    ensures |r| <= |s|
    ensures r != [] ==> !IsSpace(r[0]) && !IsSpace(r[|r| - 1])
    ensures r == [] <==> forall i :: 0 <= i < |s| ==> IsSpace(s[i])
    ensures exists i, j :: && 0 <= i <= j <= |s| && r == s[i..j]
                           && (forall k :: 0 <= k < i ==> IsSpace(s[k]))
                           && (forall k :: j <= k < |s| ==> IsSpace(s[k]))
  {
    var l := TrimLeft(s);
    var r := TrimRight(l);
    TrimBothEnds(s, l, r);
    assert 0 <= |s| - |l| <= |s| - |l| + |r| <= |s|;
    r
  }

  /** A prefix `r` of a suffix `l` of `s` is a slice of `s`; what follows `r` in `l` follows it in `s`. */
  lemma TrimBothEnds(s: string, l: string, r: string)
    requires |l| <= |s| && l == s[|s| - |l|..]
    requires |r| <= |l| && r == l[..|r|]
    requires forall k :: |r| <= k < |l| ==> IsSpace(l[k])
    ensures r == s[|s| - |l|..|s| - |l| + |r|]
    ensures forall k :: |s| - |l| + |r| <= k < |s| ==> IsSpace(s[k])
  {
    var i := |s| - |l|;
    forall k | i + |r| <= k < |s|
      ensures IsSpace(s[k])
    {
      assert s[k] == l[k - i];
    }
  }

  // ---------------------------------------------------------------- HasPrefix, Split

  /** strings.HasPrefix */
  predicate HasPrefix(s: string, p: string) {
    |p| <= |s| && s[..|p|] == p
  }

  /**
   * strings.Split(s, string(sep)): the fields between the occurrences of `sep`,
   * so there is always one more field than there are separators.
   */
  function Split(s: string, sep: char): (parts: seq<string>)
    ensures |parts| >= 1
    ensures forall i :: 0 <= i < |parts| ==> sep !in parts[i]
    decreases |s|
  {
    if s == [] then [[]]
    else
      var rest := Split(s[1..], sep);
      if s[0] == sep then [[]] + rest
      else [[s[0]] + rest[0]] + rest[1..]
  }

  /** strings.Join(parts, string(sep)), the inverse of Split. */
  function Join(parts: seq<string>, sep: char): string
    requires |parts| >= 1
  {
    if |parts| == 1 then parts[0] else parts[0] + [sep] + Join(parts[1..], sep)
  }

  lemma {:induction false} SplitThenJoin(s: string, sep: char)
    ensures Join(Split(s, sep), sep) == s
    decreases |s|
  {
    if s != [] {
      var rest := Split(s[1..], sep);
      SplitThenJoin(s[1..], sep);
      if s[0] == sep {
        assert Split(s, sep) == [[]] + rest;
        assert ([[]] + rest)[1..] == rest;
      } else {
        var parts := Split(s, sep);
        assert parts == [[s[0]] + rest[0]] + rest[1..];
        if |rest| > 1 {
          assert parts[1..] == rest[1..];
          assert Join(rest, sep) == rest[0] + [sep] + Join(rest[1..], sep);
        }
      }
    }
  }

  /** A field free of the separator, followed by the separator, is split off whole. */
  lemma {:induction false} SplitLead(w: string, sep: char, t: string)
    requires sep !in w
    ensures Split(w + [sep] + t, sep) == [w] + Split(t, sep)
    decreases |w|
  {
    var s := w + [sep] + t;
    if w == [] {
      assert s[1..] == t;
    } else {
      assert s[1..] == w[1..] + [sep] + t;
      SplitLead(w[1..], sep, t);
      assert [w[0]] + w[1..] == w;
    }
  }

  /** A string without the separator is a single field. */
  lemma {:induction false} SplitNoSep(w: string, sep: char)
    requires sep !in w
    ensures Split(w, sep) == [w]
    decreases |w|
  {
    if w != [] {
      SplitNoSep(w[1..], sep);
      assert [w[0]] + w[1..] == w;
    }
  }

  lemma {:induction false} JoinThenSplit(parts: seq<string>, sep: char)
    requires |parts| >= 1
    requires forall i :: 0 <= i < |parts| ==> sep !in parts[i]
    ensures Split(Join(parts, sep), sep) == parts
    decreases |parts|
  {
    if |parts| == 1 {
      SplitNoSep(parts[0], sep);
    } else {
      JoinThenSplit(parts[1..], sep);
      SplitLead(parts[0], sep, Join(parts[1..], sep));
      assert [parts[0]] + parts[1..] == parts;
    }
  }

  /** A string that starts with `head` and a separator splits into `head` and the split of the remainder. */
  lemma SplitAfterHead(s: string, head: string, sep: char)
    requires sep !in head && HasPrefix(s, head + [sep])
    ensures |Split(s, sep)| >= 2 && Split(s, sep) == [head] + Split(s[|head| + 1..], sep)
  {
    assert s == head + [sep] + s[|head| + 1..];
    SplitLead(head, sep, s[|head| + 1..]);
  }

  // ---------------------------------------------------------------- FormatInt, ParseInt

  predicate IsDigit(c: char) {
    '0' <= c <= '9'
  }

  function DigitChar(d: nat): (c: char)
    requires d < 10
    ensures IsDigit(c)
  {
    (('0' as int) + d) as char
  }

  function DigitValue(c: char): nat
    requires IsDigit(c)
  {
    (c as int) - ('0' as int)
  }

  /** The decimal numeral of `n`, most significant digit first, without leading zeros. */
  function Decimal(n: nat): (s: string)
    ensures |s| >= 1 && forall i :: 0 <= i < |s| ==> IsDigit(s[i])
    ensures |s| > 1 ==> s[0] != '0'
    decreases n
  {
    if n < 10 then [DigitChar(n)] else Decimal(n / 10) + [DigitChar(n % 10)]
  }

  /** strconv.FormatInt(i, 10) */
  function FormatInt(i: int): (s: string)
    ensures s != [] && ':' !in s
  {
    if i < 0 then "-" + Decimal(-i) else Decimal(i)
  }

  /** How strconv.ParseUint's loop ends for base 10. */
  datatype Scan = Value(n: nat) | SyntaxError | RangeError

  /**
   * The digit loop of strconv.ParseUint(s, 10, 64), read left to right: the
   * first non-digit is a syntax error, the first digit that takes the value
   * past 2^64 - 1 is a range error, whichever comes first.
   */
  function ScanDecimal(s: string): (r: Scan)
    ensures r.Value? ==> r.n <= MaxUint64
    decreases |s|
  {
    if s == [] then Value(0)
    else
      match ScanDecimal(s[..|s| - 1])
      case Value(n) =>
        var c := s[|s| - 1];
        if !IsDigit(c) then SyntaxError
        else if n * 10 + DigitValue(c) > MaxUint64 then RangeError
        else Value(n * 10 + DigitValue(c))
      case other => other
  }

  /** strconv.ParseUint(s, 10, 64), which also rejects the empty string. */
  function ParseUint(s: string): Scan {
    if s == [] then SyntaxError else ScanDecimal(s)
  }

  /**
   * strconv.ParseInt(s, 10, 64) as the pair (value, err == nil). A syntax
   * error yields 0; an out-of-range numeral yields the nearest int64.
   */
  function ParseInt(s: string): (r: (int, bool))
    ensures IsInt64(r.0)
    ensures !r.1 ==> r.0 == 0 || r.0 == Cutoff - 1 || r.0 == -Cutoff
    ensures !r.1 && r.0 == -Cutoff ==> s != [] && s[0] == '-'
    ensures !r.1 && r.0 == Cutoff - 1 ==> s != [] && s[0] != '-'
  {
    if s == [] then (0, false)
    else
      var neg := s[0] == '-';
      var digits := if s[0] == '+' || s[0] == '-' then s[1..] else s;
      match ParseUint(digits)
      case SyntaxError => (0, false)
      case RangeError => if neg then (-Cutoff, false) else (Cutoff - 1, false)
      case Value(u) =>
        if !neg && u >= Cutoff then (Cutoff - 1, false)
        else if neg && u > Cutoff then (-Cutoff, false)
        else (if neg then -(u as int) else u, true)
  }

  lemma {:induction false} ScanDecimalOfDecimal(n: nat)
    requires n <= MaxUint64
    ensures ScanDecimal(Decimal(n)) == Value(n)
    decreases n
  {
    var s := Decimal(n);
    if n < 10 {
      assert s[..|s| - 1] == [];
    } else {
      ScanDecimalOfDecimal(n / 10);
      assert s[..|s| - 1] == Decimal(n / 10);
      assert DigitValue(DigitChar(n % 10)) == n % 10;
    }
  }

  /** Every int64 survives FormatInt followed by ParseInt, without error. */
  lemma ParseIntOfFormatInt(i: int)
    requires IsInt64(i)
    ensures ParseInt(FormatInt(i)) == (i, true)
  {
    var s := FormatInt(i);
    if i < 0 {
      assert s[0] == '-' && s[1..] == Decimal(-i);
      ScanDecimalOfDecimal(-i);
      assert ParseUint(s[1..]) == Value(-i);
    } else {
      assert s == Decimal(i) && IsDigit(s[0]);
      ScanDecimalOfDecimal(i);
      assert ParseUint(s) == Value(i);
    }
  }
}
