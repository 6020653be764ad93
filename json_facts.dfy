/** What `src/stdlib/json.rs` promises about its text format: what the writer
    produces the reader reads back, and the reader's rules for strings,
    numbers, literals, arrays and objects. */
module JsonFacts {
  import opened Wrappers
  import opened Text
  import opened Values
  import opened JsonSyntax

  // ---- Strings ----

  /** `HexChar` writes the digit `HexDigit` reads. */
  lemma HexCharDigit(d: nat)
    requires d < 16
    ensures HexDigit(HexChar(d)) == Some(d)
  {
    var c := HexChar(d);
    assert c == "0123456789abcdef"[d];
    if d < 10 {
      assert c as int == '0' as int + d;
    } else {
      assert c as int == 'a' as int + d - 10;
    }
  }

  /** The four zero-padded hexadecimal digits written for `n` are read back as `n`. */
  lemma Hex4Value(n: nat)
    requires n < 0x1_0000
    ensures HexValue(Hex4(n)) == Some(n)
  {
    var h := Hex4(n);
    HexCharDigit(n / 0x1000);
    HexCharDigit(n / 0x100 % 16);
    HexCharDigit(n / 16 % 16);
    HexCharDigit(n % 16);
    FourDigits(h, n / 0x1000, n / 0x100 % 16, n / 16 % 16, n % 16);
    Hex4Digits(n);
  }

  /** Four hexadecimal digits are read high digit first. */
  lemma FourDigits(h: string, a: nat, b: nat, c: nat, d: nat)
    requires |h| == 4
    requires HexDigit(h[0]) == Some(a) && HexDigit(h[1]) == Some(b)
    requires HexDigit(h[2]) == Some(c) && HexDigit(h[3]) == Some(d)
    ensures HexDigits(h) == Some(((a * 16 + b) * 16 + c) * 16 + d)
  {
    var h1, h2, h3 := h[..1], h[..2], h[..3];
    assert HexDigits(h1) == Some(a);
    assert h2[..1] == h1 && h2[1] == h[1];
    assert HexDigits(h2) == Some(a * 16 + b);
    assert h3[..2] == h2 && h3[2] == h[2];
    assert HexDigits(h3) == Some((a * 16 + b) * 16 + c);
    assert h[..3] == h3;
  }

  lemma Hex4Digits(n: nat)
    requires n < 0x1_0000
    ensures ((n / 0x1000 * 16 + n / 0x100 % 16) * 16 + n / 16 % 16) * 16 + n % 16 == n
  {
    assert n / 0x1000 * 16 + n / 0x100 % 16 == n / 0x100;
    assert n / 0x100 * 16 + n / 16 % 16 == n / 16;
  }

  /** One character written by `Escape` is read back as that character. */
  lemma EscapeRead(c: char, t: string, text: string)
    ensures CharsOf(Escape(c) + t, text) == CharsOf(t, text + [c])
  {
    var s := Escape(c) + t;
    if c == '"' || c == '\\' || c == '\U{0008}' || c == '\U{000C}' || c == '\n' || c == '\r' || c == '\t' {
      assert s[2..] == t;
    } else if IsControl(c) {
      Hex4Value(c as int);
      assert s[2..6] == Hex4(c as int) && s[6..] == t;
      assert (c as int) as char == c;
    } else {
      assert s[1..] == t;
    }
  }

  /** The escaped characters of a string are read back as that string. */
  lemma {:induction false} EscapedRead(s: string, t: string, text: string)
    ensures CharsOf(Escaped(s) + t, text) == CharsOf(t, text + s)
    decreases |s|
  {
    if s == [] {
      assert Escaped(s) + t == t && text + s == text;
    } else {
      var init, last := s[..|s| - 1], s[|s| - 1];
      assert Escaped(s) + t == Escaped(init) + (Escape(last) + t);
      EscapedRead(init, Escape(last) + t, text);
      EscapeRead(last, t, text + init);
      assert text + init + [last] == text + s;
    }
  }

  /** A string written in quotes is read back, up to the closing quote. */
  lemma QuotedRead(text: string, t: string)
    ensures var s := Quote(text) + t; s != [] && s[0] == '"' && CharsOf(s[1..], "") == Ok(Scanned(text, t))
  {
    var s := Quote(text) + t;
    assert s[1..] == Escaped(text) + ("\"" + t);
    EscapedRead(text, "\"" + t, "");
    assert ("\"" + t)[1..] == t;
    assert "" + text == text;
  }

  /** The string round trip: a String written in quotes reads back as the
      same String, and reading stops right after the closing quote. */
  lemma StringRoundTrip(text: string, rest: string)
    ensures ValueOf(Quote(text) + rest) == Ok(Scanned(String(text), rest))
  {
    QuotedRead(text, rest);
  }

  /** Characters other than the quote, the backslash and the control
      characters are written as they are. */
  lemma {:induction false} EscapedPlain(s: string)
    requires forall i :: 0 <= i < |s| ==> s[i] != '"' && s[i] != '\\' && !IsControl(s[i])
    ensures Escaped(s) == s
    decreases |s|
  {
    if s != [] {
      EscapedPlain(s[..|s| - 1]);
      assert s[..|s| - 1] + [s[|s| - 1]] == s;
    }
  }

  // ---- Values ----

  /** What may follow a value without being read as part of it: nothing, or
      a character that cannot continue a number (the `,`, `]` or `}` the
      enclosing Array or object writes next among them). */
  predicate Follows(rest: string)
  {
    rest == [] || !(IsDigit(rest[0]) || rest[0] == '.' || rest[0] == 'e' || rest[0] == 'E')
  }

  /** The text `show` writes for `x` is a JSON number that reads back as
      `x`, and has no whitespace at either end. */
  ghost predicate ShownBack(show: real -> string, x: real)
  {
    var t := show(x);
    t != [] && (IsDigit(t[0]) || t[0] == '-') && !IsWhitespace(t[|t| - 1])
    && forall rest :: Follows(rest) ==> NumberOf(t + rest) == Ok(Scanned(Number(x), rest))
  }

  /** The values the reader can give back: no functions (they are written as
      `null`), and numbers whose text reads back. */
  ghost predicate Readable(v: Value, show: real -> string)
  {
    Serializable(v) && Plain(v, show)
  }

  ghost predicate Plain(v: Value, show: real -> string)
  {
    match v
    case Number(x) => ShownBack(show, x)
    case String(_) => true
    case Boolean(_) => true
    case Nil => true
    case Array(es) => forall i :: 0 <= i < |es| ==> Plain(es[i], show)
    case _ => false
  }

  /** The characters a JSON value can start with. */
  predicate ValueStart(c: char)
  {
    c == '"' || c == '[' || c == '{' || c == 't' || c == 'f' || c == 'n' || c == '-' || IsDigit(c)
  }

  /** The writer's output starts with the first character of a value and
      ends with a character that is not whitespace. */
  lemma Bounded(v: Value, show: real -> string)
    requires Readable(v, show)
    ensures var t := ToJson(v, show); t != [] && ValueStart(t[0]) && !IsWhitespace(t[|t| - 1])
  {
  }

  /** A run of whitespace is skipped as a whole. */
  lemma {:induction false} SkipBlank(w: string, x: string)
    requires forall i :: 0 <= i < |w| ==> IsWhitespace(w[i])
    requires x == [] || !IsWhitespace(x[0])
    ensures SkipWs(w + x) == x
    decreases |w|
  {
    if w == [] {
      assert w + x == x;
    } else {
      assert (w + x)[1..] == w[1..] + x;
      SkipBlank(w[1..], x);
    }
  }

  /** The parts of a join from the `k`-th on: the `k`-th, then either
      nothing more or the separator and the join of the rest. */
  lemma JoinFrom(parts: seq<string>, k: nat, sep: string, after: string)
    requires k < |parts|
    ensures k == |parts| - 1 ==> Join(parts[k..], sep) + after == parts[k] + after
    ensures k < |parts| - 1 ==>
      Join(parts[k..], sep) + after == parts[k] + (sep + (Join(parts[k + 1..], sep) + after))
  {
    if k == |parts| - 1 {
      assert parts[k..] == [parts[k]];
    } else {
      JoinFront(parts[k..], sep);
      assert parts[k..][1..] == parts[k + 1..];
    }
  }

  /** The value round trip: whatever the writer produces for a readable
      value, followed by what the enclosing text writes next, is read back
      as that same value (objects included, since both sides represent an
      object as an Array of `[key, value]` pairs). */
  lemma {:induction false} ValueRoundTrip(v: Value, show: real -> string, rest: string)
    requires Readable(v, show) && Follows(rest)
    ensures ValueOf(ToJson(v, show) + rest) == Ok(Scanned(v, rest))
    decreases v, 2, 0
  {
    match v
    case Number(x) =>
      assert ToJson(v, show) == show(x);
      NumberRead(show, x, rest);
    case String(t) =>
      assert ToJson(v, show) == Quote(t);
      StringRoundTrip(t, rest);
    case Boolean(b) =>
      WordRead(ToJson(v, show), v, rest);
    case Nil =>
      WordRead(ToJson(v, show), v, rest);
    case Array(es) =>
      if IsPairList(es) {
        ObjectRoundTrip(v, show, rest);
      } else {
        ArrayRoundTrip(v, show, rest);
      }
  }

  lemma NumberRead(show: real -> string, x: real, rest: string)
    requires ShownBack(show, x) && Follows(rest)
    ensures ValueOf(show(x) + rest) == Ok(Scanned(Number(x), rest))
  {
    var t := show(x);
    assert NumberOf(t + rest) == Ok(Scanned(Number(x), rest));
    NumberDispatch(t + rest);
  }

  /** A digit or `-` starts a number. */
  lemma NumberDispatch(s: string)
    requires s != [] && (IsDigit(s[0]) || s[0] == '-')
    ensures ValueOf(s) == NumberOf(s)
  {
    var c := s[0];
    assert c != '{' && c != '[' && c != '"' && c != 't' && c != 'f' && c != 'n';
  }

  /** `true`, `false` and `null` are read back as the values they name. */
  lemma WordRead(word: string, v: Value, rest: string)
    requires (word == "true" && v == Boolean(true)) || (word == "false" && v == Boolean(false))
      || (word == "null" && v == Nil)
    ensures ValueOf(word + rest) == Ok(Scanned(v, rest))
  {
    var s := word + rest;
    assert s[..|word|] == word && s[|word|..] == rest;
  }

  /** After `[` the reader skips whitespace; `]` then makes the empty Array,
      and anything else starts the element loop. */
  lemma ArrayOpen(body: string, rest: string)
    requires body == [] || ValueStart(body[0])
    ensures var s := "[" + body + ("]" + rest);
      ValueOf(s) == if body == [] then Ok(Scanned(Array([]), rest)) else ElementsOf(body + ("]" + rest), [])
  {
    var s := "[" + body + ("]" + rest);
    assert s[1..] == body + ("]" + rest);
    assert ValueOf(s) == ArrayOf(s);
    if body == [] {
      assert s[1..] == "]" + rest;
      assert SkipWs(s[1..]) == s[1..];
    } else {
      assert SkipWs(s[1..]) == s[1..];
    }
  }

  /** After `{` the reader skips whitespace and, at a quote, starts the
      member loop. */
  lemma ObjectOpen(body: string, rest: string)
    requires body != [] && body[0] == '"'
    ensures ValueOf("{" + body + ("}" + rest)) == MembersOf(body + ("}" + rest), [])
  {
    var s := "{" + body + ("}" + rest);
    assert s[1..] == body + ("}" + rest);
  }

  lemma {:induction false} ArrayRoundTrip(v: Value, show: real -> string, rest: string)
    requires v.Array? && Readable(v, show) && !IsPairList(v.elements) && Follows(rest)
    ensures ValueOf(ToJson(v, show) + rest) == Ok(Scanned(v, rest))
    decreases v, 1, 0
  {
    var es := v.elements;
    var parts := ElementJsons(v, |es|, show);
    var body := Join(parts, ", ");
    Bracketed('[', body, ']', rest);
    if es != [] {
      assert Readable(es[0], show);
      Bounded(es[0], show);
      JoinStart(parts, ", ");
      ElementsRoundTrip(v, show, 0, rest);
      assert parts[0..] == parts && es[..0] == [];
    }
    ArrayOpen(body, rest);
  }

  lemma {:induction false} ObjectRoundTrip(v: Value, show: real -> string, rest: string)
    requires v.Array? && Readable(v, show) && IsPairList(v.elements) && Follows(rest)
    ensures ValueOf(ToJson(v, show) + rest) == Ok(Scanned(v, rest))
    decreases v, 1, 0
  {
    var es := v.elements;
    var parts := MemberJsons(v, |es|, show);
    var body := Join(parts, ", ");
    Bracketed('{', body, '}', rest);
    MemberJsonsAt(v, |es|, show, 0);
    MemberStart(es[0].elements[0].s, es[0].elements[1], show);
    JoinStart(parts, ", ");
    MembersRoundTrip(v, show, 0, rest);
    assert parts[0..] == parts && es[..0] == [];
    ObjectOpen(body, rest);
  }

  lemma Bracketed(open: char, body: string, close: char, rest: string)
    ensures [open] + body + [close] + rest == [open] + body + ([close] + rest)
  {
  }

  lemma MemberStart(key: string, value: Value, show: real -> string)
    requires Serializable(value)
    ensures var m := Member(key, value, show); m != [] && m[0] == '"'
  {
  }

  /** After `, ` the reader skips the space and reaches the next part. */
  lemma Separator(tail: string)
    requires tail != [] && !IsWhitespace(tail[0])
    ensures var u := ", " + tail; u != [] && u[0] == ',' && SkipWs(u[1..]) == tail
  {
    var u := ", " + tail;
    assert u[1..] == " " + tail;
    SkipBlank(" ", tail);
  }

  /** An element followed by `, `: the loop goes on with the next one. */
  lemma ElementThen(x: string, item: Value, tail: string, values: seq<Value>)
    requires ValueOf(x + (", " + tail)) == Ok(Scanned(item, ", " + tail))
    requires tail != [] && ValueStart(tail[0])
    ensures ElementsOf(x + (", " + tail), values) == ElementsOf(tail, values + [item])
  {
    Separator(tail);
  }

  /** The last element, followed by `]`: the loop ends with the Array. */
  lemma ElementLast(x: string, item: Value, rest: string, values: seq<Value>)
    requires ValueOf(x + ("]" + rest)) == Ok(Scanned(item, "]" + rest))
    ensures ElementsOf(x + ("]" + rest), values) == Ok(Scanned(Array(values + [item]), rest))
  {
    assert ("]" + rest)[1..] == rest;
  }

  /** The element loop reads back the elements from the `k`-th on. */
  lemma {:induction false} ElementsRoundTrip(v: Value, show: real -> string, k: nat, rest: string)
    requires v.Array? && Readable(v, show) && k < |v.elements| && Follows(rest)
    ensures var parts := ElementJsons(v, |v.elements|, show);
      ElementsOf(Join(parts[k..], ", ") + ("]" + rest), v.elements[..k]) == Ok(Scanned(v, rest))
    decreases v, 0, |v.elements| - k
  {
    var es := v.elements;
    var parts := ElementJsons(v, |es|, show);
    var item := es[k];
    assert Readable(item, show) && parts[k] == ToJson(item, show);
    assert es[..k] + [item] == es[..k + 1];
    JoinFrom(parts, k, ", ", "]" + rest);
    if k == |es| - 1 {
      ValueRoundTrip(item, show, "]" + rest);
      ElementLast(parts[k], item, rest, es[..k]);
      assert es[..k + 1] == es;
    } else {
      var tail := Join(parts[k + 1..], ", ") + ("]" + rest);
      ValueRoundTrip(item, show, ", " + tail);
      assert Readable(es[k + 1], show);
      Bounded(es[k + 1], show);
      JoinStart(parts[k + 1..], ", ");
      ElementThen(parts[k], item, tail, es[..k]);
      ElementsRoundTrip(v, show, k + 1, rest);
    }
  }

  /** A `"key": value` member followed by `, `: the loop goes on with the
      next member. */
  lemma MemberThen(m: string, key: string, j: string, value: Value, tail: string, pairs: seq<Value>)
    requires j != [] && ValueStart(j[0])
    requires ValueOf(j + (", " + tail)) == Ok(Scanned(value, ", " + tail))
    requires tail != [] && ValueStart(tail[0])
    requires m == Quote(key) + ": " + j
    ensures MembersOf(m + (", " + tail), pairs)
      == MembersOf(tail, pairs + [Array([String(key), value])])
  {
    var after := ", " + tail;
    var t := ": " + j + after;
    Regroup(Quote(key), j, after);
    ColonRead(key, j, value, after);
    Separator(tail);
    MemberStep(Quote(key) + t, pairs, key, t, value, after);
  }

  /** The last member, followed by `}`: the loop ends with the Array of
      pairs. */
  lemma MemberLast(m: string, key: string, j: string, value: Value, rest: string, pairs: seq<Value>)
    requires j != [] && ValueStart(j[0])
    requires ValueOf(j + ("}" + rest)) == Ok(Scanned(value, "}" + rest))
    requires m == Quote(key) + ": " + j
    ensures MembersOf(m + ("}" + rest), pairs)
      == Ok(Scanned(Array(pairs + [Array([String(key), value])]), rest))
  {
    var after := "}" + rest;
    var t := ": " + j + after;
    Regroup(Quote(key), j, after);
    ColonRead(key, j, value, after);
    assert after[1..] == rest;
    MemberStep(Quote(key) + t, pairs, key, t, value, after);
  }

  /** One pass of the member loop once the key, the colon and the value
      have been read: what follows the value decides. */
  lemma MemberStep(s: string, pairs: seq<Value>, key: string, t: string, value: Value, after: string)
    requires s != [] && s[0] == '"' && CharsOf(s[1..], "") == Ok(Scanned(key, t))
    requires SkipWs(t) == t && t != [] && t[0] == ':'
    requires ValueOf(SkipWs(t[1..])) == Ok(Scanned(value, after))
    requires after != [] && (after[0] == ',' || after[0] == '}')
    ensures var more := pairs + [Array([String(key), value])];
      MembersOf(s, pairs) == if after[0] == ',' then MembersOf(SkipWs(after[1..]), more)
                             else Ok(Scanned(Array(more), after[1..]))
  {
  }

  /** The key, the colon and the value of one member are read in turn. */
  lemma ColonRead(key: string, j: string, value: Value, after: string)
    requires j != [] && ValueStart(j[0])
    requires ValueOf(j + after) == Ok(Scanned(value, after))
    ensures var t := ": " + j + after; var s := Quote(key) + t;
      s != [] && s[0] == '"' && CharsOf(s[1..], "") == Ok(Scanned(key, t)) &&
      SkipWs(t) == t && ValueOf(SkipWs(t[1..])) == Ok(Scanned(value, after))
  {
    KeyRead(key, ": " + j + after);
    AfterColon(j, value, after);
  }

  /** Regrouping a member's text and what follows it. */
  lemma Regroup(q: string, j: string, after: string)
    ensures q + ": " + j + after == q + (": " + j + after)
  {
  }

  lemma KeyRead(key: string, t: string)
    ensures var s := Quote(key) + t; s != [] && s[0] == '"' && CharsOf(s[1..], "") == Ok(Scanned(key, t))
  {
    QuotedRead(key, t);
  }

  lemma AfterColon(j: string, value: Value, after: string)
    requires j != [] && ValueStart(j[0])
    requires ValueOf(j + after) == Ok(Scanned(value, after))
    ensures var t := ": " + j + after; SkipWs(t) == t && ValueOf(SkipWs(t[1..])) == Ok(Scanned(value, after))
  {
    var t := ": " + j + after;
    assert t[1..] == " " + (j + after);
    SkipBlank(" ", j + after);
  }

  /** The `k`-th member text is that of the `k`-th pair. */
  lemma {:induction false} MemberJsonsAt(v: Value, n: nat, show: real -> string, k: nat)
    requires v.Array? && Serializable(v) && IsPairList(v.elements) && k < n <= |v.elements|
    ensures var pair := v.elements[k]; pair.elements[1] < pair && Serializable(pair.elements[1])
    ensures var pair := v.elements[k];
      MemberJsons(v, n, show)[k] == Member(pair.elements[0].s, pair.elements[1], show)
    decreases n
  {
    var pair := v.elements[k];
    assert Serializable(pair) && pair.elements[1] < pair;
    if k < n - 1 {
      MemberJsonsAt(v, n - 1, show, k);
    }
  }

  /** The `k`-th member text of a readable object, and what it is made of. */
  lemma MemberAt(v: Value, show: real -> string, k: nat)
    requires v.Array? && Readable(v, show) && IsPairList(v.elements) && k < |v.elements|
    ensures var pair := v.elements[k];
      IsPair(pair) && pair == Array([String(pair.elements[0].s), pair.elements[1]])
    ensures var value := v.elements[k].elements[1]; Readable(value, show) && value < v
    ensures var pair := v.elements[k];
      MemberJsons(v, |v.elements|, show)[k]
        == Quote(pair.elements[0].s) + ": " + ToJson(pair.elements[1], show)
    ensures var m := MemberJsons(v, |v.elements|, show)[k]; m != [] && m[0] == '"'
  {
    var pair := v.elements[k];
    assert IsPair(pair) && Readable(pair, show);
    assert pair.elements[1] < pair;
    MemberJsonsAt(v, |v.elements|, show, k);
    MemberStart(pair.elements[0].s, pair.elements[1], show);
  }

  /** Extending a prefix by the next element. */
  lemma PrefixSnoc<T>(s: seq<T>, k: nat, x: T)
    requires k < |s| && s[k] == x
    ensures s[..k] + [x] == s[..k + 1]
  {
  }

  /** The member loop reads back the pairs from the `k`-th on. */
  lemma {:induction false} MembersRoundTrip(v: Value, show: real -> string, k: nat, rest: string)
    requires v.Array? && Readable(v, show) && IsPairList(v.elements) && k < |v.elements| && Follows(rest)
    ensures var parts := MemberJsons(v, |v.elements|, show);
      MembersOf(Join(parts[k..], ", ") + ("}" + rest), v.elements[..k]) == Ok(Scanned(v, rest))
    decreases v, 0, |v.elements| - k
  {
    var es := v.elements;
    var parts := MemberJsons(v, |es|, show);
    MemberAt(v, show, k);
    var key, value := es[k].elements[0].s, es[k].elements[1];
    var j := ToJson(value, show);
    PrefixSnoc(es, k, Array([String(key), value]));
    Bounded(value, show);
    JoinFrom(parts, k, ", ", "}" + rest);
    if k == |es| - 1 {
      ValueRoundTrip(value, show, "}" + rest);
      MemberLast(parts[k], key, j, value, rest, es[..k]);
      assert es[..k + 1] == es;
    } else {
      var tail := Join(parts[k + 1..], ", ") + ("}" + rest);
      ValueRoundTrip(value, show, ", " + tail);
      MemberAt(v, show, k + 1);
      JoinStart(parts[k + 1..], ", ");
      MemberThen(parts[k], key, j, value, tail, es[..k]);
      MembersRoundTrip(v, show, k + 1, rest);
    }
  }

  /** `parse_json_text` reads back every text the writer produces. */
  lemma JsonTextRoundTrip(v: Value, show: real -> string)
    requires Readable(v, show)
    ensures JsonText(ToJson(v, show)) == Ok(v)
  {
    var t := ToJson(v, show);
    Bounded(v, show);
    ValueRoundTrip(v, show, []);
    assert t + [] == t;
    WholeText(t, v, []);
  }

  /** Text after the first value is not looked at: a readable value's text
      followed by whitespace and anything else still parses to the value. */
  lemma TrailingTextIgnored(v: Value, show: real -> string, junk: string)
    requires Readable(v, show)
    requires junk != [] && IsWhitespace(junk[0]) && !IsWhitespace(junk[|junk| - 1])
    ensures JsonText(ToJson(v, show) + junk) == Ok(v)
  {
    var j := ToJson(v, show);
    Bounded(v, show);
    ValueRoundTrip(v, show, junk);
    Ends(j, junk);
    WholeText(j + junk, v, junk);
  }

  /** The first and last characters of a concatenation. */
  lemma Ends(a: string, b: string)
    requires a != [] && b != []
    ensures var c := a + b; c[0] == a[0] && c[|c| - 1] == b[|b| - 1]
  {
  }

  /** A text with no whitespace at either end is read as it stands. */
  lemma WholeText(t: string, v: Value, rest: string)
    requires t != [] && !IsWhitespace(t[0]) && !IsWhitespace(t[|t| - 1])
    requires ValueOf(t) == Ok(Scanned(v, rest))
    ensures JsonText(t) == Ok(v)
  {
    assert SkipWs(t) == t;
    assert TrimEnd(t) == t;
  }

  /** Two elements with no `,` between them are an error. */
  lemma MissingComma(v: Value, show: real -> string, junk: string)
    requires Readable(v, show) && Follows(junk)
    requires junk != [] && !IsWhitespace(junk[0]) && junk[0] != ',' && junk[0] != ']'
    ensures ValueOf("[" + ToJson(v, show) + junk) == Err("Expected ',' or ']' in JSON array")
  {
    Bounded(v, show);
    ValueRoundTrip(v, show, junk);
    FirstElementThenJunk(ToJson(v, show), v, junk);
  }

  lemma FirstElementThenJunk(j: string, v: Value, junk: string)
    requires j != [] && ValueStart(j[0])
    requires ValueOf(j + junk) == Ok(Scanned(v, junk))
    requires junk != [] && !IsWhitespace(junk[0]) && junk[0] != ',' && junk[0] != ']'
    ensures ValueOf("[" + j + junk) == Err("Expected ',' or ']' in JSON array")
  {
    assert "[" + j + junk == "[" + (j + junk);
    ArrayFirst(j + junk);
    ElementStep(j + junk, [], v, junk);
  }

  /** `[` followed by the start of a value begins the element loop. */
  lemma ArrayFirst(body: string)
    requires body != [] && ValueStart(body[0])
    ensures ValueOf("[" + body) == ElementsOf(body, [])
  {
    var s := "[" + body;
    assert s[1..] == body;
    ArrayDispatch(s);
    assert !IsWhitespace(body[0]) && body[0] != ']';
    assert SkipWs(body) == body;
  }

  /** One pass of the element loop once a value has been read: what follows
      it decides. */
  lemma ElementStep(s: string, values: seq<Value>, item: Value, after: string)
    requires ValueOf(s) == Ok(Scanned(item, after))
    requires after != [] && !IsWhitespace(after[0])
    ensures ElementsOf(s, values) ==
      if after[0] == ',' then ElementsOf(SkipWs(after[1..]), values + [item])
      else if after[0] == ']' then Ok(Scanned(Array(values + [item]), after[1..]))
      else Err("Expected ',' or ']' in JSON array")
  {
    assert SkipWs(after) == after;
  }

  /** `[` starts an Array. */
  lemma ArrayDispatch(s: string)
    requires s != [] && s[0] == '['
    ensures ValueOf(s) == ArrayOf(s)
  {
    assert s[0] != '{';
  }

  /** An object member must start with a string key. */
  lemma KeyMustBeString(s: string)
    requires var t := SkipWs(s); t != [] && t[0] != '"' && t[0] != '}'
    ensures ValueOf("{" + s) == Err("Expected string key in JSON object")
  {
    var w := "{" + s;
    assert w[1..] == s;
    var t := SkipWs(s);
    assert ObjectOf(w) == MembersOf(t, []);
    assert MembersOf(t, []) == Err("Expected string key in JSON object");
    assert ValueOf(w) == ObjectOf(w);
  }

  /** An Array is written as an object exactly when it is a non-empty list
      of `[String, value]` pairs. */
  lemma ObjectForm(v: Value, show: real -> string)
    requires v.Array? && Serializable(v)
    ensures var t := ToJson(v, show); t != [] && (t[0] == '{' <==> IsPairList(v.elements))
    ensures var t := ToJson(v, show); t != [] && (t[0] == '[' <==> !IsPairList(v.elements))
  {
  }

  /** A function is written as `null`, so it is read back as Nil. */
  lemma FunctionReadsAsNil(v: Value, show: real -> string)
    requires v.Function? || v.NativeFunction?
    ensures JsonText(ToJson(v, show)) == Ok(Nil)
  {
    assert ToJson(v, show) == "null";
    WordRead("null", Nil, []);
    assert "null" + [] == "null";
    WholeText("null", Nil, []);
  }

  // ---- Escapes ----

  /** A backslash followed by anything but the eight one-letter escapes and
      `u` is an error. */
  lemma UnknownEscape(c: char, t: string, text: string)
    requires SimpleEscape(c).None? && c != 'u'
    ensures CharsOf(['\\', c] + t, text) == Err("Invalid escape sequence in JSON string: \\" + [c])
  {
    var s := ['\\', c] + t;
    assert s[1] == c;
  }

  /** `\u` escapes naming a surrogate are an error: surrogate pairs are not
      combined. */
  lemma SurrogateEscape(code: string, t: string, text: string)
    requires |code| == 4 && HexValue(code).Some? && 0xD800 <= HexValue(code).value < 0xE000
    ensures CharsOf("\\u" + code + t, text) == Err("Invalid Unicode code point in JSON string: \\u" + code)
  {
    var s := "\\u" + code + t;
    assert s[2..6] == code;
  }

  /** A string with no closing quote is an error. */
  lemma {:induction false} Unterminated(s: string, text: string)
    requires forall i :: 0 <= i < |s| ==> s[i] != '"' && s[i] != '\\'
    ensures CharsOf(s, text) == Err("Unterminated JSON string")
    decreases |s|
  {
    if s != [] {
      Unterminated(s[1..], text + [s[0]]);
    }
  }

  /** `u32::from_str_radix` accepts a leading `+`, so `\\u+041` is read as
      `A`, although it is not a JSON escape. */
  lemma PlusInUnicodeEscape()
    ensures CharsOf("\\u+041\"", "") == Ok(Scanned("A", ""))
  {
    var s := "\\u+041\"";
    assert s[0] == '\\' && s[1] == 'u' && |s| == 7;
    assert SimpleEscape('u') == None;
    assert s[2..6] == "+041";
    PlusHex();
    assert (0x41 as char) == 'A';
    assert s[6..] == "\"";
    assert "" + ['A'] == "A";
    assert CharsOf(s, "") == CharsOf("\"", "A");
  }

  lemma PlusHex()
    ensures HexValue("+041") == Some(0x41)
  {
    assert "+041"[1..] == "041";
    var h := "041";
    assert h[..2] == "04" && h[..2][..1] == "0";
    assert HexDigits("0") == Some(0);
    assert HexDigits("04") == Some(4);
    assert HexDigits(h) == Some(0x41);
  }

  // ---- Numbers ----

  /** Digits followed by a character that cannot continue a number: the
      value of the digits, leading zeros included. */
  lemma DigitsNumber(d: string, rest: string)
    requires d != [] && forall i :: 0 <= i < |d| ==> IsDigit(d[i])
    requires Follows(rest)
    ensures NumberOf(d + rest) == Ok(Scanned(Number(Natural(d) as real), rest))
  {
    var s := d + rest;
    assert s[0] == d[0] && s[0] != '-';
    DigitsFromAll(d, rest, "");
    assert "" + d == d;
    FloatOfDigits(d);
    NumberSteps(s, d, rest);
  }

  /** `parse_json_number` when the sign and the digits read `text` and
      leave a `rest` with no fraction or exponent. */
  lemma NumberSteps(s: string, text: string, rest: string)
    requires var sign := if s != [] && s[0] == '-' then Scanned("-", s[1..]) else Scanned("", s);
      DigitsFrom(sign.rest, sign.value) == Scanned(text, rest)
    requires Follows(rest)
    ensures NumberOf(s) == match FloatOf(text)
      case None => Err("Invalid JSON number: " + text)
      case Some(x) => Ok(Scanned(Number(x), rest))
  {
    assert FractionFrom(rest, text) == Some(Scanned(text, rest));
    assert ExponentFrom(rest, text) == Some(Scanned(text, rest));
  }

  /** A run of digits converts to its value. */
  lemma FloatOfDigits(d: string)
    requires d != [] && forall i :: 0 <= i < |d| ==> IsDigit(d[i])
    ensures FloatOf(d) == Some(Natural(d) as real)
  {
    assert d[0] != '-' && d[0] != '+';
    assert DigitRun(d) == |d|;
    assert d[..|d|] == d && d[|d|..] == [] && d[|d|..|d|] == [];
    assert ExponentOf([]) == Some(0);
    assert FloatOf(d) == Some(Decimal(false, d, [], 0));
    WholeDecimal(d);
  }

  lemma WholeDecimal(d: string)
    ensures Decimal(false, d, [], 0) == Natural(d) as real
  {
    assert Natural([]) == 0 && Pow(10, 0) == 1 && Scale(0) == 1.0;
  }

  /** `DigitsFrom` takes a whole run of digits. */
  lemma {:induction false} DigitsFromAll(d: string, rest: string, text: string)
    requires forall i :: 0 <= i < |d| ==> IsDigit(d[i])
    requires Follows(rest)
    ensures DigitsFrom(d + rest, text) == Scanned(text + d, rest)
    decreases |d|
  {
    if d == [] {
      assert d + rest == rest && text + d == text;
    } else {
      assert (d + rest)[1..] == d[1..] + rest;
      DigitsFromAll(d[1..], rest, text + [d[0]]);
      assert text + [d[0]] + d[1..] == text + d;
    }
  }

  /** Decimal rendering is read back as the same number. */
  lemma {:induction false} NaturalOfNatToString(n: nat)
    ensures Natural(NatToString(n)) == n
  {
    var t := NatToString(n);
    if n < 10 {
      DigitValue(n);
    } else {
      NaturalOfNatToString(n / 10);
      DigitValue(n % 10);
      assert t[..|t| - 1] == NatToString(n / 10);
    }
  }

  lemma DigitValue(d: nat)
    requires d < 10
    ensures DigitChar(d) as int - '0' as int == d
  {
  }

  /** A `show` that writes whole numbers in decimal, as `f64::to_string`
      does, meets the hypothesis of the value round trip for them. */
  lemma WholeNumbersShownBack(show: real -> string, n: nat)
    requires show(n as real) == NatToString(n)
    ensures ShownBack(show, n as real)
  {
    var t := NatToString(n);
    NaturalOfNatToString(n);
    forall rest | Follows(rest)
      ensures NumberOf(t + rest) == Ok(Scanned(Number(n as real), rest))
    {
      DigitsNumber(t, rest);
    }
  }

  /** A `.` must be followed by a digit. */
  lemma FractionNeedsDigit(t: string, text: string)
    ensures FractionFrom("." + t, text).None? <==> (t == [] || !IsDigit(t[0]))
  {
    assert ("." + t)[1..] == t;
    if t != [] && IsDigit(t[0]) {
      var d := DigitsFrom(t[1..], text + ['.', t[0]]);
      assert text + ['.'] + [t[0]] == text + ['.', t[0]];
      assert |d.value| >= |text| + 2;
    }
  }

  /** An `e` or `E`, with or without a sign, must be followed by a digit. */
  lemma ExponentNeedsDigit(s: string, text: string)
    requires s != [] && (s[0] == 'e' || s[0] == 'E')
    ensures var d := if |s| > 1 && (s[1] == '+' || s[1] == '-') then s[2..] else s[1..];
      ExponentFrom(s, text).None? <==> (d == [] || !IsDigit(d[0]))
  {
    var signed := |s| > 1 && (s[1] == '+' || s[1] == '-');
    var mark := if signed then text + s[..2] else text + [s[0]];
    var d := if signed then s[2..] else s[1..];
    if d != [] && IsDigit(d[0]) {
      assert |DigitsFrom(d[1..], mark + [d[0]]).value| >= |mark| + 1;
    }
  }

  /** A `-` with no digits after it is an error. */
  lemma LoneMinus(rest: string)
    requires Follows(rest) && (rest == [] || rest[0] != '-')
    ensures NumberOf("-" + rest) == Err("Invalid JSON number: -")
  {
    var s := "-" + rest;
    assert s[0] == '-' && s[1..] == rest;
    assert DigitsFrom(rest, "-") == Scanned("-", rest);
    NumberSteps(s, "-", rest);
    NoDigitsNoNumber();
    assert "Invalid JSON number: " + "-" == "Invalid JSON number: -";
  }

  lemma NoDigitsNoNumber()
    ensures FloatOf("-") == None
  {
    assert "-"[1..] == [];
    assert DigitRun([]) == 0;
  }

  /** The examples of the source's own tests: `42`, `"hello"`, `true`,
      and two more: leading zeros are accepted, a cut-off literal is not. */
  lemma ParseFortyTwo()
    ensures JsonText("42") == Ok(Number(42.0))
  {
    DigitsNumber("42", []);
    assert "42" + [] == "42";
    NumberDispatch("42");
    assert Natural("42") == 42;
    WholeText("42", Number(42.0), []);
  }

  lemma ParseLeadingZeros()
    ensures JsonText("007") == Ok(Number(7.0))
  {
    DigitsNumber("007", []);
    assert "007" + [] == "007";
    NumberDispatch("007");
    SevenValue();
    WholeText("007", Number(7.0), []);
  }

  lemma SevenValue()
    ensures Natural("007") == 7
  {
    assert "007"[..2] == "00" && "00"[..1] == "0";
    assert Natural("0") == 0 && Natural("00") == 0;
  }

  lemma ParseHello()
    ensures JsonText("\"hello\"") == Ok(String("hello"))
  {
    EscapedPlain("hello");
    assert Quote("hello") == "\"hello\"";
    StringRoundTrip("hello", []);
    assert Quote("hello") + [] == "\"hello\"";
    WholeText("\"hello\"", String("hello"), []);
  }

  lemma ParseTrue()
    ensures JsonText("true") == Ok(Boolean(true))
  {
    WordRead("true", Boolean(true), []);
    assert "true" + [] == "true";
    WholeText("true", Boolean(true), []);
  }

  lemma ParseCutOffLiteral()
    ensures JsonText("nul") == Err("Invalid JSON literal")
  {
    assert SkipWs("nul") == "nul" && TrimEnd("nul") == "nul";
    assert !StartsWith("nul", "null");
  }
}
