/** The regular-expression builtins of `src/stdlib/regex.rs`, around an
    abstract matching engine (the `regex` crate). A regex value is an Array
    `[pattern, "__REGEX__" + processed pattern]`; the compiled regex is not
    kept, and every operation compiles the processed pattern again. */
module RegexLib {
  import opened Wrappers
  import opened Text
  import opened Values

  /** What the wrappers ask of the `regex` crate. `compileError` is `None`
      when `Regex::new` accepts the pattern and the error's text when it
      does not; the other members are the operations on a compiled
      pattern, taken here as the pattern text. `captures` gives the groups
      of the first match, group 0 first, `None` for a group that did not
      take part. */
  datatype Engine = Engine(
    compileError: string -> Option<string>,
    isMatch: (string, string) -> bool,
    findAll: (string, string) -> seq<string>,
    replaceAll: (string, string, string) -> string,
    split: (string, string) -> seq<string>,
    captures: (string, string) -> Option<seq<Option<string>>>,
    escape: string -> string)

  const Marker: string := "__REGEX__"
  const NotARegex: string := "First argument must be a regex object created with regex_new"

  /** The metacharacter escapes the pattern processing names: the first
      two arms of its match. */
  predicate NamedEscape(c: char)
  {
    c in "dDwWsSbBnrt0AZzGpP" || c in "xuU"
  }

  /** `process_pattern`: walks the pattern, copying a backslash together
      with the character after it, a trailing backslash alone, and every
      other character as it is. Every arm copies what it reads, so the
      result is the pattern itself. */
  method ProcessPattern(pattern: string) returns (result: string)
    ensures result == pattern
  {
    result := "";
    var i := 0;
    while i < |pattern|
      invariant i <= |pattern|
      invariant result == pattern[..i]
    {
      var c := pattern[i];
      i := i + 1;
      if c == '\\' {
        if i < |pattern| {
          var next := pattern[i];
          if NamedEscape(next) {
            result := result + ['\\', next];
          } else {
            result := result + ['\\', next];
          }
          i := i + 1;
        } else {
          result := result + ['\\'];
        }
      } else {
        result := result + [c];
      }
    }
    assert pattern[..|pattern|] == pattern;
  }

  /** The regex value `regex_new` builds for a pattern. */
  function Encoded(pattern: string): Value
  {
    Array([String(pattern), String(Marker + pattern)])
  }

  /** `is_regex`: a two-element Array of Strings whose second starts with
      the marker. */
  predicate IsRegex(v: Value)
  {
    v.Array? && |v.elements| == 2 && v.elements[0].String? && v.elements[1].String? &&
    StartsWith(v.elements[1].s, Marker)
  }

  /** `str::strip_prefix`. */
  function StripPrefix(s: string, prefix: string): (r: Option<string>)
    ensures r.Some? <==> StartsWith(s, prefix)
    ensures r.Some? ==> prefix + r.value == s
  {
    if StartsWith(s, prefix) then Some(s[|prefix|..]) else None
  }

  /** `get_processed_pattern`: the marker stripped from the second
      element. Its "Invalid regex object" branch cannot be reached: a
      value that passes `is_regex` always has the prefix to strip. */
  function GetProcessedPattern(v: Value): (r: Result<string, string>)
    ensures r.Ok? <==> IsRegex(v)
    ensures r.Ok? ==> v.elements[1].s == Marker + r.value
    ensures r.Err? ==> r.error == "Expected a regex object"
  {
    if !IsRegex(v) then Err("Expected a regex object")
    else
      match StripPrefix(v.elements[1].s, Marker)
      case Some(pattern) => Ok(pattern)
      case None => Err("Invalid regex object")
  }

  /** `get_compiled_regex`: the processed pattern, compiled again. */
  function CompiledRegex(v: Value, engine: Engine): (r: Result<string, string>)
    ensures r.Ok? <==> IsRegex(v) && engine.compileError(GetProcessedPattern(v).value).None?
    ensures r.Ok? ==> r.value == GetProcessedPattern(v).value
  {
    match GetProcessedPattern(v)
    case Err(e) => Err(e)
    case Ok(pattern) =>
      match engine.compileError(pattern)
      case Some(e) => Err("Failed to recreate regex: " + e)
      case None => Ok(pattern)
  }

  /** A regex value gives back the pattern it was made from. */
  lemma EncodedRoundTrip(pattern: string)
    ensures IsRegex(Encoded(pattern))
    ensures GetProcessedPattern(Encoded(pattern)) == Ok(pattern)
  {
    var marked := Marker + pattern;
    assert marked[..|Marker|] == Marker;
    assert marked[|Marker|..] == pattern;
  }

  /** `regex_new`: one String argument, a pattern the engine accepts. */
  method RegexNew(args: seq<Value>, engine: Engine) returns (r: Result<Value, string>)
    ensures |args| != 1 ==> r == Err("regex_new expects 1 argument")
    ensures |args| == 1 && !args[0].String? ==> r == Err("regex_new expects a string pattern")
    ensures |args| == 1 && args[0].String? && engine.compileError(args[0].s).Some? ==>
      r == Err("Invalid regex pattern: " + engine.compileError(args[0].s).value)
    ensures |args| == 1 && args[0].String? && engine.compileError(args[0].s).None? ==>
      r == Ok(Encoded(args[0].s))
    ensures r.Ok? ==> IsRegex(r.value) && GetProcessedPattern(r.value) == Ok(args[0].s)
  {
    if |args| != 1 {
      return Err("regex_new expects 1 argument");
    }
    if !args[0].String? {
      return Err("regex_new expects a string pattern");
    }
    var pattern := args[0].s;
    var processed := ProcessPattern(pattern);
    match engine.compileError(processed) {
      case None =>
        r := Ok(Array([String(pattern), String(Marker + processed)]));
        EncodedRoundTrip(pattern);
      case Some(e) =>
        r := Err("Invalid regex pattern: " + e);
    }
  }

  /** The argument shape every operation on a regex checks: `count`
      arguments, a regex value first and Strings after it. */
  predicate RegexArguments(args: seq<Value>, count: nat)
  {
    |args| == count && count >= 1 && IsRegex(args[0]) &&
    forall i :: 1 <= i < count ==> args[i].String?
  }

  /** `regex_test`: whether the pattern matches somewhere in the text. */
  function RegexTest(args: seq<Value>, engine: Engine): (r: Result<Value, string>)
    ensures |args| != 2 ==> r == Err("regex_test expects 2 arguments")
    ensures |args| == 2 && !IsRegex(args[0]) ==> r == Err(NotARegex)
    ensures |args| == 2 && IsRegex(args[0]) && !args[1].String? ==> r == Err("Second argument must be a string")
    ensures r.Ok? <==> RegexArguments(args, 2) && CompiledRegex(args[0], engine).Ok?
    ensures r.Ok? ==> r.value == Boolean(engine.isMatch(CompiledRegex(args[0], engine).value, args[1].s))
  {
    if |args| != 2 then Err("regex_test expects 2 arguments")
    else if !IsRegex(args[0]) then Err(NotARegex)
    else if !args[1].String? then Err("Second argument must be a string")
    else
      match CompiledRegex(args[0], engine)
      case Err(e) => Err(e)
      case Ok(pattern) => Ok(Boolean(engine.isMatch(pattern, args[1].s)))
  }

  /** `regex_match_all`: the text of every match, in order. */
  method RegexMatchAll(args: seq<Value>, engine: Engine) returns (r: Result<Value, string>)
    ensures |args| != 2 ==> r == Err("regex_match_all expects 2 arguments")
    ensures |args| == 2 && !IsRegex(args[0]) ==> r == Err(NotARegex)
    ensures |args| == 2 && IsRegex(args[0]) && !args[1].String? ==> r == Err("Second argument must be a string")
    ensures r.Ok? <==> RegexArguments(args, 2) && CompiledRegex(args[0], engine).Ok?
    ensures r.Ok? ==>
      var found := engine.findAll(CompiledRegex(args[0], engine).value, args[1].s);
      r.value.Array? && |r.value.elements| == |found| &&
      forall i :: 0 <= i < |found| ==> r.value.elements[i] == String(found[i])
  {
    if |args| != 2 {
      return Err("regex_match_all expects 2 arguments");
    }
    if !IsRegex(args[0]) {
      return Err(NotARegex);
    }
    if !args[1].String? {
      return Err("Second argument must be a string");
    }
    var compiled := CompiledRegex(args[0], engine);
    if compiled.Err? {
      return Err(compiled.error);
    }
    var found := engine.findAll(compiled.value, args[1].s);
    var matches: seq<Value> := [];
    for i := 0 to |found|
      invariant |matches| == i
      invariant forall k :: 0 <= k < i ==> matches[k] == String(found[k])
    {
      matches := matches + [String(found[i])];
    }
    r := Ok(Array(matches));
  }

  /** `regex_replace_all`: every match replaced, `$n` references and all,
      as the engine does it. */
  function RegexReplaceAll(args: seq<Value>, engine: Engine): (r: Result<Value, string>)
    ensures |args| != 3 ==> r == Err("regex_replace_all expects 3 arguments")
    ensures |args| == 3 && !IsRegex(args[0]) ==> r == Err(NotARegex)
    ensures |args| == 3 && IsRegex(args[0]) && !args[1].String? ==> r == Err("Second argument must be a string")
    ensures |args| == 3 && IsRegex(args[0]) && args[1].String? && !args[2].String? ==>
      r == Err("Third argument must be a string")
    ensures r.Ok? <==> RegexArguments(args, 3) && CompiledRegex(args[0], engine).Ok?
    ensures r.Ok? ==>
      r.value == String(engine.replaceAll(CompiledRegex(args[0], engine).value, args[1].s, args[2].s))
  {
    if |args| != 3 then Err("regex_replace_all expects 3 arguments")
    else if !IsRegex(args[0]) then Err(NotARegex)
    else if !args[1].String? then Err("Second argument must be a string")
    else if !args[2].String? then Err("Third argument must be a string")
    else
      match CompiledRegex(args[0], engine)
      case Err(e) => Err(e)
      case Ok(pattern) => Ok(String(engine.replaceAll(pattern, args[1].s, args[2].s)))
  }

  /** `regex_split`: the pieces between matches, each a String. */
  function RegexSplit(args: seq<Value>, engine: Engine): (r: Result<Value, string>)
    ensures |args| != 2 ==> r == Err("regex_split expects 2 arguments")
    ensures |args| == 2 && !IsRegex(args[0]) ==> r == Err(NotARegex)
    ensures |args| == 2 && IsRegex(args[0]) && !args[1].String? ==> r == Err("Second argument must be a string")
    ensures r.Ok? <==> RegexArguments(args, 2) && CompiledRegex(args[0], engine).Ok?
    ensures r.Ok? ==>
      var parts := engine.split(CompiledRegex(args[0], engine).value, args[1].s);
      r.value.Array? && |r.value.elements| == |parts| &&
      forall i :: 0 <= i < |parts| ==> r.value.elements[i] == String(parts[i])
  {
    if |args| != 2 then Err("regex_split expects 2 arguments")
    else if !IsRegex(args[0]) then Err(NotARegex)
    else if !args[1].String? then Err("Second argument must be a string")
    else
      match CompiledRegex(args[0], engine)
      case Err(e) => Err(e)
      case Ok(pattern) =>
        var parts := engine.split(pattern, args[1].s);
        Ok(Array(seq(|parts|, i requires 0 <= i < |parts| => String(parts[i]))))
  }

  /** A group as a value: its text, or `nil` when it did not take part. */
  function GroupValue(group: Option<string>): Value
  {
    match group
    case Some(text) => String(text)
    case None => Nil
  }

  /** `regex_capture`: `nil` when nothing matches; otherwise an Array of
      the groups of the first match, the whole match first. */
  method RegexCapture(args: seq<Value>, engine: Engine) returns (r: Result<Value, string>)
    ensures |args| != 2 ==> r == Err("regex_capture expects 2 arguments")
    ensures |args| == 2 && !IsRegex(args[0]) ==> r == Err(NotARegex)
    ensures |args| == 2 && IsRegex(args[0]) && !args[1].String? ==> r == Err("Second argument must be a string")
    ensures r.Ok? <==> RegexArguments(args, 2) && CompiledRegex(args[0], engine).Ok?
    ensures r.Ok? ==>
      var caps := engine.captures(CompiledRegex(args[0], engine).value, args[1].s);
      (caps.None? <==> r.value == Nil) &&
      (caps.Some? ==>
        var groups := caps.value;
        r.value.Array? && |r.value.elements| == (if groups == [] then 1 else |groups|) &&
        r.value.elements[0] == (if groups == [] then Nil else GroupValue(groups[0])) &&
        forall i :: 0 <= i < |groups| ==> r.value.elements[i] == GroupValue(groups[i]))
  {
    if |args| != 2 {
      return Err("regex_capture expects 2 arguments");
    }
    if !IsRegex(args[0]) {
      return Err(NotARegex);
    }
    if !args[1].String? {
      return Err("Second argument must be a string");
    }
    var compiled := CompiledRegex(args[0], engine);
    if compiled.Err? {
      return Err(compiled.error);
    }
    match engine.captures(compiled.value, args[1].s) {
      case None =>
        r := Ok(Nil);
      case Some(caps) =>
        var groups: seq<Value> := [if caps != [] then GroupValue(caps[0]) else Nil];
        var i := 1;
        while i < |caps|
          invariant caps == [] ==> groups == [Nil]
          invariant caps != [] ==> i <= |caps| && |groups| == i
          invariant forall k :: 0 <= k < |caps| && k < i ==> groups[k] == GroupValue(caps[k])
        {
          groups := groups + [GroupValue(caps[i])];
          i := i + 1;
        }
        r := Ok(Array(groups));
    }
  }

  /** `regex_is_valid`: whether the engine accepts the processed pattern.
      On one String argument it never fails. */
  method RegexIsValid(args: seq<Value>, engine: Engine) returns (r: Result<Value, string>)
    ensures |args| != 1 ==> r == Err("regex_is_valid expects 1 argument")
    ensures |args| == 1 && !args[0].String? ==> r == Err("regex_is_valid expects a string pattern")
    ensures |args| == 1 && args[0].String? ==>
      r == Ok(Boolean(engine.compileError(args[0].s).None?))
  {
    if |args| != 1 {
      return Err("regex_is_valid expects 1 argument");
    }
    if !args[0].String? {
      return Err("regex_is_valid expects a string pattern");
    }
    var processed := ProcessPattern(args[0].s);
    r := Ok(Boolean(engine.compileError(processed).None?));
  }

  /** `regex_escape`: the engine's escaping of a String. */
  function RegexEscape(args: seq<Value>, engine: Engine): (r: Result<Value, string>)
    ensures r.Ok? <==> |args| == 1 && args[0].String?
    ensures r.Ok? ==> r.value == String(engine.escape(args[0].s))
    ensures |args| != 1 ==> r == Err("regex_escape expects 1 argument")
    ensures |args| == 1 && !args[0].String? ==> r == Err("regex_escape expects a string")
  {
    if |args| != 1 then Err("regex_escape expects 1 argument")
    else if !args[0].String? then Err("regex_escape expects a string")
    else Ok(String(engine.escape(args[0].s)))
  }

  /** The regex test values `"not a regex"`, 42 and `["not", "a regex"]`
      are not regex values. */
  lemma NotRegexes()
    ensures !IsRegex(String("not a regex")) && !IsRegex(Number(42.0)) && !IsRegex(Nil)
    ensures !IsRegex(Array([String("not"), String("a regex")]))
  {
    assert |"a regex"| < |Marker|;
  }

  /** A regex value made by `regex_new` matches with the pattern it was
      made from. */
  lemma TestEncoded(pattern: string, text: string, engine: Engine)
    requires engine.compileError(pattern).None?
    ensures RegexTest([Encoded(pattern), String(text)], engine) ==
      Ok(Boolean(engine.isMatch(pattern, text)))
  {
    EncodedRoundTrip(pattern);
  }

  /** Arguments of the wrong shape are refused the same way whatever the
      engine: the checks come before the engine is used. */
  lemma ChecksBeforeEngine(args: seq<Value>, e1: Engine, e2: Engine)
    ensures !RegexArguments(args, 2) ==>
      RegexTest(args, e1).Err? && RegexTest(args, e1) == RegexTest(args, e2) &&
      RegexSplit(args, e1).Err? && RegexSplit(args, e1) == RegexSplit(args, e2)
    ensures !RegexArguments(args, 3) ==>
      RegexReplaceAll(args, e1).Err? && RegexReplaceAll(args, e1) == RegexReplaceAll(args, e2)
  {
    if !RegexArguments(args, 2) && |args| == 2 && IsRegex(args[0]) {
      assert !args[1].String?;
    }
    if !RegexArguments(args, 3) && |args| == 3 && IsRegex(args[0]) {
      assert !args[1].String? || !args[2].String?;
    }
  }

  /** A value that passes `is_regex` but whose pattern the engine refuses
      is only found out when an operation compiles it again. */
  lemma ForgedRegex(pattern: string, text: string, engine: Engine)
    requires engine.compileError(pattern).Some?
    ensures RegexTest([Encoded(pattern), String(text)], engine) ==
      Err("Failed to recreate regex: " + engine.compileError(pattern).value)
  {
    EncodedRoundTrip(pattern);
  }
}
