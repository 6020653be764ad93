/** The JSON text format as `src/stdlib/json.rs` reads and writes it.

    Reading is described on the characters not yet read: each function takes
    them and returns the value read together with the characters that remain,
    which is what the `Peekable<Chars>` cursor of the source holds. Objects
    are read into an Array of `[key, value]` pairs. Writing is
    `value_to_json_string`, with the text of a number supplied by the caller
    (`f64::to_string`). */
module JsonSyntax {
  import opened Wrappers
  import opened Text
  import opened Values

  /** A value read and the characters left after it. */
  datatype Scanned<T> = Scanned(value: T, rest: string)

  /** A result that, when it succeeds, has read at least one character of `s`. */
  predicate Consumed<T>(r: Result<Scanned<T>, string>, s: string)
  {
    r.Ok? ==> |r.value.rest| < |s|
  }

  /** The whitespace-skipping `while let` loop: `char::is_whitespace`. */
  function SkipWs(s: string): (r: string)
    ensures |r| <= |s| && (r == [] || !IsWhitespace(r[0]))
  {
    if s != [] && IsWhitespace(s[0]) then SkipWs(s[1..]) else s
  }

  /** `str::trim`: leading and trailing Unicode whitespace removed. */
  function Trim(s: string): (r: string)
  {
    TrimEnd(SkipWs(s))
  }

  function TrimEnd(s: string): (r: string)
    ensures |r| <= |s| && r == s[..|r|]
    ensures r == [] || !IsWhitespace(r[|r| - 1])
    ensures forall i :: |r| <= i < |s| ==> IsWhitespace(s[i])
  {
    if s != [] && IsWhitespace(s[|s| - 1]) then TrimEnd(s[..|s| - 1]) else s
  }

  // ---- Reading ----

  /** `parse_json_text`: the text is trimmed and one value read from it;
      whatever follows that value is not looked at. */
  function JsonText(s: string): (r: Result<Value, string>)
  {
    match ValueOf(Trim(s))
    case Ok(Scanned(v, _)) => Ok(v)
    case Err(e) => Err(e)
  }

  /** `parse_json_value`: the next character chooses what is read. */
  function ValueOf(s: string): (r: Result<Scanned<Value>, string>)
    ensures Consumed(r, s)
    decreases |s|, 2
  {
    if s == [] then Err("Unexpected end of JSON input")
    else if s[0] == '{' then ObjectOf(s)
    else if s[0] == '[' then ArrayOf(s)
    else if s[0] == '"' then StringOf(s)
    else if s[0] == 't' then LiteralOf(s, "true", Boolean(true))
    else if s[0] == 'f' then LiteralOf(s, "false", Boolean(false))
    else if s[0] == 'n' then LiteralOf(s, "null", Nil)
    else if IsDigit(s[0]) || s[0] == '-' then NumberOf(s)
    else Err("Unexpected character in JSON: " + [s[0]])
  }

  /** `parse_json_object`, called at the opening brace: `{}` is the empty
      Array, and otherwise the members are read in order. */
  function ObjectOf(s: string): (r: Result<Scanned<Value>, string>)
    requires s != []
    ensures Consumed(r, s)
    decreases |s|, 1
  {
    var t := SkipWs(s[1..]);
    if t != [] && t[0] == '}' then Ok(Scanned(Array([]), t[1..]))
    else MembersOf(t, [])
  }

  /** The member loop of `parse_json_object`: a string key, `:`, a value,
      then `,` and another member or the closing brace. Each member becomes
      the pair `[String(key), value]` after the pairs in `pairs`. */
  function MembersOf(s: string, pairs: seq<Value>): (r: Result<Scanned<Value>, string>)
    ensures Consumed(r, s)
    decreases |s|, 3
  {
    if s == [] || s[0] != '"' then Err("Expected string key in JSON object")
    else
      match CharsOf(s[1..], "")
      case Err(e) => Err(e)
      case Ok(Scanned(key, t)) =>
        var u := SkipWs(t);
        if u == [] || u[0] != ':' then Err("Expected ':' in JSON object")
        else
          match ValueOf(SkipWs(u[1..]))
          case Err(e) => Err(e)
          case Ok(Scanned(v, w)) =>
            var x := SkipWs(w);
            var more := pairs + [Array([String(key), v])];
            if x != [] && x[0] == ',' then MembersOf(SkipWs(x[1..]), more)
            else if x != [] && x[0] == '}' then Ok(Scanned(Array(more), x[1..]))
            else Err("Expected ',' or '}' in JSON object")
  }

  /** `parse_json_array`, called at the opening bracket: `[]` is the empty
      Array, and otherwise the elements are read in order. */
  function ArrayOf(s: string): (r: Result<Scanned<Value>, string>)
    requires s != []
    ensures Consumed(r, s)
    decreases |s|, 1
  {
    var t := SkipWs(s[1..]);
    if t != [] && t[0] == ']' then Ok(Scanned(Array([]), t[1..]))
    else ElementsOf(t, [])
  }

  /** The element loop of `parse_json_array`: a value, then `,` and another
      element or the closing bracket, after the elements in `values`. */
  function ElementsOf(s: string, values: seq<Value>): (r: Result<Scanned<Value>, string>)
    ensures Consumed(r, s)
    decreases |s|, 3
  {
    match ValueOf(s)
    case Err(e) => Err(e)
    case Ok(Scanned(v, t)) =>
      var u := SkipWs(t);
      if u != [] && u[0] == ',' then ElementsOf(SkipWs(u[1..]), values + [v])
      else if u != [] && u[0] == ']' then Ok(Scanned(Array(values + [v]), u[1..]))
      else Err("Expected ',' or ']' in JSON array")
  }

  /** `parse_json_string`, called at the opening quote. */
  function StringOf(s: string): (r: Result<Scanned<Value>, string>)
    requires s != []
    ensures Consumed(r, s)
  {
    match CharsOf(s[1..], "")
    case Ok(Scanned(text, rest)) => Ok(Scanned(String(text), rest))
    case Err(e) => Err(e)
  }

  /** The character loop of `parse_json_string`, with `text` decoded so far:
      a quote ends the string, a backslash starts an escape, any other
      character stands for itself. */
  function CharsOf(s: string, text: string): (r: Result<Scanned<string>, string>)
    ensures Consumed(r, s)
    decreases |s|
  {
    if s == [] then Err("Unterminated JSON string")
    else if s[0] == '"' then Ok(Scanned(text, s[1..]))
    else if s[0] != '\\' then CharsOf(s[1..], text + [s[0]])
    else if |s| == 1 then Err("Unexpected end of JSON string")
    else if SimpleEscape(s[1]).Some? then CharsOf(s[2..], text + [SimpleEscape(s[1]).value])
    else if s[1] != 'u' then Err("Invalid escape sequence in JSON string: \\" + [s[1]])
    else if |s| < 6 then Err("Incomplete Unicode escape sequence in JSON string")
    else
      var code := s[2..6];
      match HexValue(code)
      case None => Err("Invalid Unicode escape sequence in JSON string: \\u" + code)
      case Some(n) =>
        if IsScalar(n) then CharsOf(s[6..], text + [n as char])
        else Err("Invalid Unicode code point in JSON string: \\u" + code)
  }

  /** The character a one-letter escape stands for. */
  function SimpleEscape(c: char): Option<char>
  {
    match c
    case '"' => Some('"')
    case '\\' => Some('\\')
    case '/' => Some('/')
    case 'b' => Some('\U{0008}')
    case 'f' => Some('\U{000C}')
    case 'n' => Some('\n')
    case 'r' => Some('\r')
    case 't' => Some('\t')
    case _ => None
  }

  /** `std::char::from_u32` succeeds exactly on Unicode scalar values. */
  predicate IsScalar(n: nat)
  {
    n < 0xD800 || 0xE000 <= n < 0x11_0000
  }

  /** `u32::from_str_radix(code, 16)` on the four characters of a `\u`
      escape: hexadecimal digits of either case, after an optional `+`. */
  function HexValue(code: string): Option<nat>
  {
    if |code| > 1 && code[0] == '+' then HexDigits(code[1..])
    else HexDigits(code)
  }

  /** The value of a non-empty run of hexadecimal digits. */
  function HexDigits(d: string): (r: Option<nat>)
    ensures r.Some? ==> r.value < Pow(16, |d|)
  {
    if d == [] then None
    else if HexDigit(d[|d| - 1]).None? then None
    else if |d| == 1 then HexDigit(d[0])
    else match HexDigits(d[..|d| - 1])
      case None => None
      case Some(high) => Some(high * 16 + HexDigit(d[|d| - 1]).value)
  }

  function HexDigit(c: char): (r: Option<nat>)
    ensures r.Some? ==> r.value < 16
  {
    if '0' <= c <= '9' then Some(c as int - '0' as int)
    else if 'a' <= c <= 'f' then Some(c as int - 'a' as int + 10)
    else if 'A' <= c <= 'F' then Some(c as int - 'A' as int + 10)
    else None
  }

  function Pow(b: nat, e: nat): (r: nat)
    ensures b > 0 ==> r > 0
  {
    if e == 0 then 1 else b * Pow(b, e - 1)
  }

  /** `parse_json_true`, `parse_json_false`, `parse_json_null`: the exact word. */
  function LiteralOf(s: string, word: string, v: Value): (r: Result<Scanned<Value>, string>)
    requires word != []
    ensures Consumed(r, s)
  {
    if StartsWith(s, word) then Ok(Scanned(v, s[|word|..])) else Err("Invalid JSON literal")
  }

  /** The number of digits `s` starts with. */
  function DigitRun(s: string): (n: nat)
    ensures n <= |s| && (n < |s| ==> !IsDigit(s[n]))
    ensures forall i :: 0 <= i < n ==> IsDigit(s[i])
  {
    if s != [] && IsDigit(s[0]) then 1 + DigitRun(s[1..]) else 0
  }

  /** A piece of `parse_json_number` that appends what it reads to `text`
      and leaves the rest. */
  predicate Appends(r: Scanned<string>, text: string, s: string)
  {
    |r.rest| <= |s| && |r.value| + |r.rest| == |text| + |s|
  }

  /** `parse_json_number`: an optional `-`, digits, a fraction, an exponent,
      each appended to the number text, which `FloatOf` then converts. */
  function NumberOf(s: string): (r: Result<Scanned<Value>, string>)
    ensures Consumed(r, s)
  {
    var sign := if s != [] && s[0] == '-' then Scanned("-", s[1..]) else Scanned("", s);
    var whole := DigitsFrom(sign.rest, sign.value);
    match FractionFrom(whole.rest, whole.value)
    case None => Err("Invalid JSON number format")
    case Some(fraction) =>
      match ExponentFrom(fraction.rest, fraction.value)
      case None => Err("Invalid JSON number format")
      case Some(number) =>
        match FloatOf(number.value)
        case None => Err("Invalid JSON number: " + number.value)
        case Some(x) => FloatConsumes(number.value); Ok(Scanned(Number(x), number.rest))
  }

  /** A `while let` loop of `parse_json_number`: the digits `s` starts with,
      appended to `text`. */
  function DigitsFrom(s: string, text: string): (r: Scanned<string>)
    ensures Appends(r, text, s)
  {
    if s != [] && IsDigit(s[0]) then DigitsFrom(s[1..], text + [s[0]]) else Scanned(text, s)
  }

  /** The fraction: nothing without a `.`, and an error when the `.` is not
      followed by a digit (`has_fraction`). */
  function FractionFrom(s: string, text: string): (r: Option<Scanned<string>>)
    ensures r.Some? ==> Appends(r.value, text, s)
  {
    if s == [] || s[0] != '.' then Some(Scanned(text, s))
    else
      var digits := DigitsFrom(s[1..], text + ['.']);
      if |digits.value| == |text| + 1 then None else Some(digits)
  }

  /** The exponent: nothing without `e` or `E`; otherwise an optional sign
      and at least one digit (`has_exponent`). */
  function ExponentFrom(s: string, text: string): (r: Option<Scanned<string>>)
    ensures r.Some? ==> Appends(r.value, text, s)
  {
    if s == [] || (s[0] != 'e' && s[0] != 'E') then Some(Scanned(text, s))
    else
      var mark := if |s| > 1 && (s[1] == '+' || s[1] == '-') then Scanned(text + s[..2], s[2..])
                  else Scanned(text + [s[0]], s[1..]);
      var digits := DigitsFrom(mark.rest, mark.value);
      if |digits.value| == |mark.value| then None else Some(digits)
  }

  /** `str::parse::<f64>` on a decimal text: an optional sign, digits, an
      optional fraction, an optional exponent, with at least one digit
      before the exponent. The value is the exact one: rounding to the
      nearest `f64` is not modelled. */
  function FloatOf(t: string): (r: Option<real>)
  {
    var negative := t != [] && t[0] == '-';
    var u := if t != [] && (t[0] == '-' || t[0] == '+') then t[1..] else t;
    var w := DigitRun(u);
    var point := w < |u| && u[w] == '.';
    var f := if point then DigitRun(u[w + 1..]) else 0;
    var m := if point then w + 1 + f else w;
    if w + f == 0 then None
    else
      match ExponentOf(u[m..])
      case None => None
      case Some(e) => Some(Decimal(negative, u[..w], u[m - f..m], e))
  }

  /** The value of a decimal with the given sign, whole digits, fraction
      digits and exponent. */
  function Decimal(negative: bool, whole: string, fraction: string, exponent: int): real
  {
    var mantissa := Natural(whole) as real + Natural(fraction) as real / Pow(10, |fraction|) as real;
    (if negative then -mantissa else mantissa) * Scale(exponent)
  }

  /** The whole of `t` as an exponent: empty, or `e`/`E`, an optional sign and
      at least one digit. */
  function ExponentOf(t: string): Option<int>
  {
    if t == [] then Some(0)
    else if t[0] != 'e' && t[0] != 'E' then None
    else
      var negative := |t| > 1 && t[1] == '-';
      var d := if |t| > 1 && (t[1] == '+' || t[1] == '-') then t[2..] else t[1..];
      if d == [] || DigitRun(d) != |d| then None
      else
        var n: int := Natural(d);
        Some(if negative then -n else n)
  }

  /** The value of a run of decimal digits. */
  function Natural(d: string): nat
  {
    if d == [] || !IsDigit(d[|d| - 1]) then 0
    else Natural(d[..|d| - 1]) * 10 + (d[|d| - 1] as int - '0' as int)
  }

  /** Multiplication by ten to the power `e`. */
  function Scale(e: int): real
  {
    if e >= 0 then Pow(10, e) as real else 1.0 / Pow(10, -e) as real
  }

  /** A text `FloatOf` accepts has a digit, so it is not empty. */
  lemma FloatConsumes(t: string)
    requires FloatOf(t).Some?
    ensures t != []
  {
  }

  // ---- Writing ----

  /** The values `value_to_json_string` has a case for: it has none for
      Object and Namespace, at any depth. */
  predicate Serializable(v: Value)
  {
    match v
    case Object(_) => false
    case Namespace(_, _) => false
    case Array(es) => forall i :: 0 <= i < |es| ==> Serializable(es[i])
    case _ => true
  }

  /** An element written as an object member: a 2-element Array whose first
      element is a String. */
  predicate IsPair(e: Value)
  {
    e.Array? && |e.elements| == 2 && e.elements[0].String?
  }

  /** The test that writes an Array as an object: non-empty, all pairs. */
  predicate IsPairList(es: seq<Value>)
  {
    es != [] && forall i :: 0 <= i < |es| ==> IsPair(es[i])
  }

  /** `value_to_json_string`. A number is written as `show` writes it;
      functions have no JSON form and are written as `null`. */
  function ToJson(v: Value, show: real -> string): string
    requires Serializable(v)
    decreases v, 1
  {
    match v
    case Number(n) => show(n)
    case String(s) => Quote(s)
    case Boolean(b) => if b then "true" else "false"
    case Nil => "null"
    case Array(es) =>
      if IsPairList(es) then "{" + Join(MemberJsons(v, |es|, show), ", ") + "}"
      else "[" + Join(ElementJsons(v, |es|, show), ", ") + "]"
    case Function(_, _, _) => "null"
    case NativeFunction(_, _) => "null"
  }

  /** The JSON texts of the first `n` elements of an Array. */
  function ElementJsons(v: Value, n: nat, show: real -> string): (r: seq<string>)
    requires v.Array? && Serializable(v) && n <= |v.elements|
    ensures |r| == n
    ensures forall i :: 0 <= i < n ==> r[i] == ToJson(v.elements[i], show)
    decreases v, 0, n
  {
    if n == 0 then [] else ElementJsons(v, n - 1, show) + [ToJson(v.elements[n - 1], show)]
  }

  /** The `"key": value` texts of the first `n` pairs of an Array written as
      an object. */
  function MemberJsons(v: Value, n: nat, show: real -> string): (r: seq<string>)
    requires v.Array? && Serializable(v) && IsPairList(v.elements) && n <= |v.elements|
    ensures |r| == n
    decreases v, 0, n
  {
    if n == 0 then []
    else
      var pair := v.elements[n - 1];
      assert Serializable(pair) && pair.elements[1] < pair;
      MemberJsons(v, n - 1, show) + [Member(pair.elements[0].s, pair.elements[1], show)]
  }

  function Member(key: string, value: Value, show: real -> string): string
    requires Serializable(value)
    decreases value, 2
  {
    Quote(key) + ": " + ToJson(value, show)
  }

  /** A String written in quotes, each character escaped by `Escape`. */
  function Quote(s: string): string
  {
    "\"" + Escaped(s) + "\""
  }

  function Escaped(s: string): string
  {
    if s == [] then "" else Escaped(s[..|s| - 1]) + Escape(s[|s| - 1])
  }

  /** How one character is written: a quote, a backslash and the five
      characters with short escapes get them, any other control character
      becomes `\u` and four lower-case hexadecimal digits, and everything
      else, `/` included, stands for itself. */
  function Escape(c: char): string
  {
    if c == '"' then "\\\""
    else if c == '\\' then "\\\\"
    else if c == '\U{0008}' then "\\b"
    else if c == '\U{000C}' then "\\f"
    else if c == '\n' then "\\n"
    else if c == '\r' then "\\r"
    else if c == '\t' then "\\t"
    else if IsControl(c) then "\\u" + Hex4(c as int)
    else [c]
  }

  /** Four lower-case hexadecimal digits, zero-padded, for `n < 0x10000`. */
  function Hex4(n: nat): (r: string)
    requires n < 0x1_0000
    ensures |r| == 4
  {
    [HexChar(n / 0x1000), HexChar(n / 0x100 % 16), HexChar(n / 16 % 16), HexChar(n % 16)]
  }

  function HexChar(d: nat): (c: char)
    requires d < 16
  {
    "0123456789abcdef"[d]
  }
}
