/** The `parse_json_*` functions of `src/stdlib/json.rs`, which share one
    `Peekable<Chars>` cursor. The cursor is held as the characters not yet
    read; each method is proved to return what the reading function of
    `JsonSyntax` with the matching name returns, and to leave unread what
    that function leaves. */
module JsonReading {
  import opened Wrappers
  import opened Text
  import opened Values
  import opened JsonSyntax

  /** A method's result and the characters it left, in the form the reading
      functions return. */
  function Outcome<T>(r: Result<T, string>, rest: string): Result<Scanned<T>, string>
  {
    if r.Ok? then Ok(Scanned(r.value, rest)) else Err(r.error)
  }

  /** `parse_json_text`: a cursor over the trimmed text, and one value. */
  method ParseText(text: string) returns (r: Result<Value, string>)
    ensures r == JsonText(text)
  {
    var reader := new JsonReader(Trim(text));
    r := reader.ParseValue();
  }

  /** `json_parse`: the argument must be a String. */
  method JsonParse(args: seq<Value>) returns (r: Result<Value, string>)
    requires |args| >= 1
    ensures args[0].String? ==> r == JsonText(args[0].s)
    ensures !args[0].String? ==> r == Err("json_parse: argument must be a string")
  {
    if args[0].String? {
      r := ParseText(args[0].s);
    } else {
      r := Err("json_parse: argument must be a string");
    }
  }

  class JsonReader {
    var rest: string

    constructor (text: string)
      ensures rest == text
    {
      rest := text;
    }

    /** `peek`. */
    function Peek(): (c: Option<char>)
      reads this
      ensures c.Some? <==> rest != []
      ensures c.Some? ==> c.value == rest[0]
    {
      if rest == [] then None else Some(rest[0])
    }

    /** `next`: the first unread character, which is then read. */
    method Next() returns (c: Option<char>)
      modifies this
      ensures c == old(Peek())
      ensures rest == if old(rest) == [] then [] else old(rest)[1..]
    {
      if rest == [] {
        c := None;
      } else {
        c := Some(rest[0]);
        rest := rest[1..];
      }
    }

    /** The `while let` loop that skips whitespace. */
    method SkipWhitespace()
      modifies this
      ensures rest == SkipWs(old(rest))
    {
      while rest != [] && IsWhitespace(rest[0])
        invariant SkipWs(rest) == SkipWs(old(rest))
        decreases |rest|
      {
        var _ := Next();
      }
    }

    /** `parse_json_value`. */
    method ParseValue() returns (r: Result<Value, string>)
      modifies this
      ensures Outcome(r, rest) == ValueOf(old(rest))
      decreases |rest|, 2
    {
      var c := Peek();
      if c.None? {
        r := Err("Unexpected end of JSON input");
      } else if c.value == '{' {
        r := ParseObject();
      } else if c.value == '[' {
        r := ParseArray();
      } else if c.value == '"' {
        r := ParseString();
      } else if c.value == 't' {
        r := ParseLiteral("true", Boolean(true));
      } else if c.value == 'f' {
        r := ParseLiteral("false", Boolean(false));
      } else if c.value == 'n' {
        r := ParseLiteral("null", Nil);
      } else if IsDigit(c.value) || c.value == '-' {
        r := ParseNumber();
      } else {
        r := Err("Unexpected character in JSON: " + [c.value]);
      }
    }

    /** `parse_json_object`, at the opening brace. */
    method ParseObject() returns (r: Result<Value, string>)
      requires rest != []
      modifies this
      ensures Outcome(r, rest) == ObjectOf(old(rest))
      decreases |rest|, 1
    {
      var _ := Next();
      SkipWhitespace();
      if Peek() == Some('}') {
        var _ := Next();
        r := Ok(Array([]));
      } else {
        var pairs: seq<Value> := [];
        ghost var all := MembersOf(rest, []);
        var more := true;
        r := Ok(Array([]));
        while more
          invariant more ==> all == MembersOf(rest, pairs)
          invariant !more ==> Outcome(r, rest) == all
          decreases more, |rest|
        {
          r, pairs, more := NextMember(pairs);
        }
      }
    }

    /** One pass of the member loop of `parse_json_object`: `more` when a
        comma asks for another member, with `members` the pairs so far. */
    method NextMember(pairs: seq<Value>) returns (r: Result<Value, string>, members: seq<Value>, more: bool)
      modifies this
      ensures more ==> |rest| < |old(rest)| && MembersOf(old(rest), pairs) == MembersOf(rest, members)
      ensures !more ==> Outcome(r, rest) == MembersOf(old(rest), pairs)
      decreases |rest|, 3
    {
      more := false;
      members := pairs;
      if Peek() != Some('"') {
        r := Err("Expected string key in JSON object");
      } else {
        ghost var k0 := CharsOf(rest[1..], "");
        var key := ParseString();
        assert key.Ok? ==> k0 == Ok(Scanned(key.value.s, rest));
        if key.Err? {
          r := Err(key.error);
        } else {
          SkipWhitespace();
          if Peek() != Some(':') {
            r := Err("Expected ':' in JSON object");
          } else {
            var _ := Next();
            SkipWhitespace();
            ghost var v0 := ValueOf(rest);
            var value := ParseValue();
            assert Outcome(value, rest) == v0;
            if value.Err? {
              r := Err(value.error);
            } else {
              members := pairs + [Array([String(key.value.s), value.value])];
              SkipWhitespace();
              var c := Peek();
              if c == Some(',') {
                var _ := Next();
                SkipWhitespace();
                r := Ok(Array(members));
                more := true;
              } else if c == Some('}') {
                var _ := Next();
                r := Ok(Array(members));
              } else {
                r := Err("Expected ',' or '}' in JSON object");
              }
            }
          }
        }
      }
    }

    /** `parse_json_array`, at the opening bracket. */
    method ParseArray() returns (r: Result<Value, string>)
      requires rest != []
      modifies this
      ensures Outcome(r, rest) == ArrayOf(old(rest))
      decreases |rest|, 1
    {
      var _ := Next();
      SkipWhitespace();
      if Peek() == Some(']') {
        var _ := Next();
        r := Ok(Array([]));
      } else {
        var values: seq<Value> := [];
        ghost var all := ElementsOf(rest, []);
        var more := true;
        r := Ok(Array([]));
        while more
          invariant more ==> all == ElementsOf(rest, values)
          invariant !more ==> Outcome(r, rest) == all
          decreases more, |rest|
        {
          r, values, more := NextElement(values);
        }
      }
    }

    /** One pass of the element loop of `parse_json_array`. */
    method NextElement(values: seq<Value>) returns (r: Result<Value, string>, elements: seq<Value>, more: bool)
      modifies this
      ensures more ==> |rest| < |old(rest)| && ElementsOf(old(rest), values) == ElementsOf(rest, elements)
      ensures !more ==> Outcome(r, rest) == ElementsOf(old(rest), values)
      decreases |rest|, 3
    {
      more := false;
      elements := values;
      ghost var v0 := ValueOf(rest);
      var value := ParseValue();
      assert Outcome(value, rest) == v0;
      if value.Err? {
        r := Err(value.error);
      } else {
        elements := values + [value.value];
        SkipWhitespace();
        var c := Peek();
        if c == Some(',') {
          var _ := Next();
          SkipWhitespace();
          r := Ok(Array(elements));
          more := true;
        } else if c == Some(']') {
          var _ := Next();
          r := Ok(Array(elements));
        } else {
          r := Err("Expected ',' or ']' in JSON array");
        }
      }
    }

    /** `parse_json_string`, at the opening quote. */
    method ParseString() returns (r: Result<Value, string>)
      requires rest != []
      modifies this
      ensures Outcome(r, rest) == StringOf(old(rest))
    {
      var _ := Next();
      var result := "";
      ghost var all := CharsOf(rest, "");
      var more := true;
      var text: Result<string, string> := Ok("");
      while more
        invariant more ==> all == CharsOf(rest, result)
        invariant !more ==> Outcome(text, rest) == all
        decreases more, |rest|
      {
        text, result, more := NextChar(result);
      }
      if text.Ok? {
        r := Ok(String(text.value));
      } else {
        r := Err(text.error);
      }
    }

    /** One pass of the character loop of `parse_json_string`, with `text`
        decoded so far: `more` unless the string ended or was in error. */
    method NextChar(text: string) returns (r: Result<string, string>, decoded: string, more: bool)
      modifies this
      ensures more ==> |rest| < |old(rest)| && CharsOf(old(rest), text) == CharsOf(rest, decoded)
      ensures !more ==> Outcome(r, rest) == CharsOf(old(rest), text)
    {
      ghost var s := rest;
      more := false;
      decoded := text;
      r := Ok(text);
      var c := Next();
      if c.None? {
        r := Err("Unterminated JSON string");
      } else if c.value == '"' {
        r := Ok(text);
      } else if c.value != '\\' {
        decoded := text + [c.value];
        more := true;
      } else {
        var e := Next();
        assert e.Some? ==> rest == s[2..];
        if e.None? {
          r := Err("Unexpected end of JSON string");
        } else if SimpleEscape(e.value).Some? {
          decoded := text + [SimpleEscape(e.value).value];
          more := true;
        } else if e.value != 'u' {
          r := Err("Invalid escape sequence in JSON string: \\" + [e.value]);
        } else {
          var code := ReadCode();
          assert code.Some? ==> code.value == s[2..6] && rest == s[6..];
          if code.None? {
            r := Err("Incomplete Unicode escape sequence in JSON string");
          } else {
            var n := HexValue(code.value);
            if n.None? {
              r := Err("Invalid Unicode escape sequence in JSON string: \\u" + code.value);
            } else if !IsScalar(n.value) {
              r := Err("Invalid Unicode code point in JSON string: \\u" + code.value);
            } else {
              decoded := text + [n.value as char];
              more := true;
            }
          }
        }
      }
    }

    /** The four characters after `\u`, read one at a time; `None` when the
        text ends first. */
    method ReadCode() returns (code: Option<string>)
      modifies this
      ensures |old(rest)| >= 4 ==> code == Some(old(rest)[..4]) && rest == old(rest)[4..]
      ensures |old(rest)| < 4 ==> code.None?
    {
      var digits := "";
      var complete := true;
      for i := 0 to 4
        invariant complete ==> |digits| == i && old(rest) == digits + rest
        invariant !complete ==> |old(rest)| < 4
      {
        if complete {
          var c := Next();
          if c.None? {
            complete := false;
          } else {
            digits := digits + [c.value];
          }
        }
      }
      if complete {
        assert old(rest)[..4] == digits;
        code := Some(digits);
      } else {
        code := None;
      }
    }

    /** `parse_json_true`, `parse_json_false`, `parse_json_null`: the
        characters are compared one by one with the word. */
    method ParseLiteral(word: string, v: Value) returns (r: Result<Value, string>)
      requires word != []
      modifies this
      ensures Outcome(r, rest) == LiteralOf(old(rest), word, v)
    {
      var matched := true;
      var i := 0;
      while i < |word| && matched
        invariant 0 <= i <= |word|
        decreases |word| - i, matched
        invariant matched ==> i <= |old(rest)| && old(rest)[..i] == word[..i] && rest == old(rest)[i..]
        invariant !matched ==> !StartsWith(old(rest), word)
      {
        var c := Next();
        if c != Some(word[i]) {
          matched := false;
        } else {
          i := i + 1;
        }
      }
      if matched {
        r := Ok(v);
      } else {
        r := Err("Invalid JSON literal");
      }
    }

    /** The `while let` loops of `parse_json_number` that collect digits. */
    method TakeDigits(text: string) returns (collected: string)
      modifies this
      ensures Scanned(collected, rest) == DigitsFrom(old(rest), text)
    {
      collected := text;
      while rest != [] && IsDigit(rest[0])
        invariant DigitsFrom(rest, collected) == DigitsFrom(old(rest), text)
        decreases |rest|
      {
        var c := Next();
        collected := collected + [c.value];
      }
    }

    /** `parse_json_number`: the text of the number is collected, then
        converted by `FloatOf`. */
    method ParseNumber() returns (r: Result<Value, string>)
      modifies this
      ensures Outcome(r, rest) == NumberOf(old(rest))
    {
      ghost var s := rest;
      var text := "";
      if Peek() == Some('-') {
        var c := Next();
        text := text + [c.value];
        assert text == "-";
      }
      assert Scanned(text, rest) == if s != [] && s[0] == '-' then Scanned("-", s[1..]) else Scanned("", s);
      text := TakeDigits(text);
      var valid;
      text, valid := ReadFraction(text);
      if valid {
        text, valid := ReadExponent(text);
      }
      if !valid {
        r := Err("Invalid JSON number format");
      } else {
        var x := FloatOf(text);
        if x.None? {
          r := Err("Invalid JSON number: " + text);
        } else {
          r := Ok(Number(x.value));
        }
      }
    }

    /** The fraction of `parse_json_number`. */
    method ReadFraction(text: string) returns (collected: string, valid: bool)
      modifies this
      ensures valid <==> FractionFrom(old(rest), text).Some?
      ensures valid ==> Scanned(collected, rest) == FractionFrom(old(rest), text).value
    {
      collected := text;
      valid := true;
      if Peek() == Some('.') {
        var c := Next();
        collected := collected + [c.value];
        var before := |collected|;
        collected := TakeDigits(collected);
        valid := |collected| > before;
      }
    }

    /** The exponent of `parse_json_number`. */
    method ReadExponent(text: string) returns (collected: string, valid: bool)
      modifies this
      ensures valid <==> ExponentFrom(old(rest), text).Some?
      ensures valid ==> Scanned(collected, rest) == ExponentFrom(old(rest), text).value
    {
      ghost var s := rest;
      collected := text;
      valid := true;
      if Peek() == Some('e') || Peek() == Some('E') {
        var c := Next();
        collected := collected + [c.value];
        if Peek() == Some('+') || Peek() == Some('-') {
          c := Next();
          collected := collected + [c.value];
          assert collected == text + s[..2];
        }
        var before := |collected|;
        collected := TakeDigits(collected);
        valid := |collected| > before;
      }
    }
  }
}
