/** Character classes and small string helpers shared by the standard library
    and the evaluator: decimal rendering of counts, UTF-8 byte length, and the
    Unicode classes `char::is_whitespace`, `char::is_control` and
    `char::is_digit(10)` that the JSON codec consults. */
module Text {

  /** Decimal rendering of a natural number, as `format!("{}", n)` prints a `usize`. */
  function NatToString(n: nat): (r: string)
    ensures |r| >= 1
    ensures forall i :: 0 <= i < |r| ==> '0' <= r[i] <= '9'
  {
    if n < 10 then [DigitChar(n)] else NatToString(n / 10) + [DigitChar(n % 10)]
  }

  function DigitChar(d: nat): (c: char)
    requires d < 10
    ensures '0' <= c <= '9'
  {
    ['0', '1', '2', '3', '4', '5', '6', '7', '8', '9'][d]
  }

  /** Number of bytes `c` occupies in UTF-8. */
  function Utf8Width(c: char): nat
  {
    var code := c as int;
    if code < 0x80 then 1 else if code < 0x800 then 2 else if code < 0x10000 then 3 else 4
  }

  /** `str::len`: the length of a string in UTF-8 bytes, not in characters. */
  function Utf8Len(s: string): (n: nat)
    ensures n >= |s|
  {
    if s == [] then 0 else Utf8Width(s[0]) + Utf8Len(s[1..])
  }

  /** Unicode `White_Space`, which `char::is_whitespace` and `str::trim` use. */
  predicate IsWhitespace(c: char)
  {
    var code := c as int;
    (0x09 <= code <= 0x0D) || code == 0x20 || code == 0x85 || code == 0xA0 || code == 0x1680
    || (0x2000 <= code <= 0x200A) || code == 0x2028 || code == 0x2029 || code == 0x202F
    || code == 0x205F || code == 0x3000
  }

  /** Unicode general category Cc, which `char::is_control` tests. */
  predicate IsControl(c: char)
  {
    var code := c as int;
    code <= 0x1F || (0x7F <= code <= 0x9F)
  }

  /** `char::is_digit(10)`: ASCII decimal digits only. */
  predicate IsDigit(c: char)
  {
    '0' <= c <= '9'
  }

  predicate StartsWith(s: string, prefix: string)
  {
    |prefix| <= |s| && s[..|prefix|] == prefix
  }

  /** The parts separated by `sep`: the separator appears only between two
      parts. Defined on the last part, the order in which a loop that pushes
      `sep` before every part but the first builds it. */
  function Join(parts: seq<string>, sep: string): string
  {
    if |parts| == 0 then ""
    else if |parts| == 1 then parts[0]
    else Join(parts[..|parts| - 1], sep) + sep + parts[|parts| - 1]
  }

  /** Adding one more part to a join adds the separator only when some
      part came before. */
  lemma JoinSnoc(parts: seq<string>, x: string, sep: string)
    ensures Join(parts + [x], sep) == if parts == [] then x else Join(parts, sep) + sep + x
  {
    assert (parts + [x])[..|parts|] == parts;
  }

  /** A join of two or more parts, taken apart from the front. */
  lemma {:induction false} JoinFront(parts: seq<string>, sep: string)
    requires |parts| >= 2
    ensures Join(parts, sep) == parts[0] + sep + Join(parts[1..], sep)
    decreases |parts|
  {
    var n := |parts|;
    if n == 2 {
      assert parts[..1] == [parts[0]];
      assert parts[1..] == [parts[1]];
    } else {
      JoinFront(parts[..n - 1], sep);
      assert parts[..n - 1][1..] == parts[1..][..n - 2];
      assert parts[..n - 1][0] == parts[0];
    }
  }

  /** A join starts with its first part. */
  lemma JoinStart(parts: seq<string>, sep: string)
    requires parts != [] && parts[0] != []
    ensures var j := Join(parts, sep); j != [] && j[0] == parts[0][0]
  {
    if |parts| >= 2 {
      JoinFront(parts, sep);
    }
  }

  /** The total length of some parts. */
  function TotalLength(parts: seq<string>): nat
  {
    if parts == [] then 0 else TotalLength(parts[..|parts| - 1]) + |parts[|parts| - 1]|
  }

  /** The separator occurs once between each two parts: a join of `n`
      parts is as long as the parts together plus `n - 1` separators. */
  lemma {:induction false} JoinLength(parts: seq<string>, sep: string)
    requires parts != []
    ensures |Join(parts, sep)| == TotalLength(parts) + (|parts| - 1) * |sep|
    decreases |parts|
  {
    var n := |parts|;
    if n == 1 {
      assert parts[..0] == [];
    } else {
      JoinLength(parts[..n - 1], sep);
    }
  }

  /** `f64::to_string` followed by the removal of a trailing `.0`, which
      `join` and `as_string` use to print whole numbers without it. */
  function TrimPointZero(t: string): (r: string)
    ensures |t| >= 2 && t[|t| - 2..] == ".0" ==> r + ".0" == t
    ensures !(|t| >= 2 && t[|t| - 2..] == ".0") ==> r == t
  {
    if |t| >= 2 && t[|t| - 2..] == ".0" then t[..|t| - 2] else t
  }

  /** Every character below U+0080. */
  predicate IsAscii(s: string)
  {
    forall i :: 0 <= i < |s| ==> s[i] as int < 0x80
  }

  /** On ASCII text, bytes and characters coincide. */
  lemma {:induction false} AsciiLength(s: string)
    requires IsAscii(s)
    ensures Utf8Len(s) == |s|
    decreases |s|
  {
    if s != [] {
      AsciiLength(s[1..]);
    }
  }
}
