/** The array builtins of `src/stdlib/array.rs`. Each one clones its
    arguments and returns a fresh value; the arguments are never changed.

    A Number used as an index goes through Rust's saturating `as usize`
    cast (`ToUsize`). A String's length, where the source asks for it with
    `str::len`, is its length in UTF-8 bytes (`Text.Utf8Len`), while its
    characters are reached by character position. Where those two disagree
    the source panics or refuses valid input: `GetAsWritten`,
    `SetAsWritten` and `SliceAsWritten` model the code as written (`None`
    is a panic), and `Get`, `Set` and `Slice` count characters throughout,
    which is what the rest of the model uses. */
module ArrayLib {
  import opened Wrappers
  import opened Text
  import opened Values

  /** The largest `usize` on a 64-bit target. */
  const UsizeMax: nat := 0xFFFF_FFFF_FFFF_FFFF

  /** `x as usize` for an `f64`: truncation toward zero, saturating at 0
      below and at `UsizeMax` above. */
  function ToUsize(x: real): (r: nat)
    ensures r <= UsizeMax
    ensures x <= 0.0 ==> r == 0
    ensures 0.0 <= x < UsizeMax as real ==> r as real <= x < r as real + 1.0
    ensures x >= UsizeMax as real ==> r == UsizeMax
  {
    if x <= 0.0 then 0 else if x >= UsizeMax as real then UsizeMax else x.Floor
  }

  /** `array`: the arguments, as they are, make the Array. */
  function MakeArray(args: seq<Value>): (r: Result<Value, string>)
    ensures r.Ok? && r.value.Array? && r.value.elements == args
  {
    Ok(Array(args))
  }

  /** `length`: the element count of an Array, the byte length of a String. */
  function Length(args: seq<Value>): (r: Result<Value, string>)
    requires |args| >= 1
    ensures r.Ok? <==> args[0].Array? || args[0].String?
    ensures args[0].Array? ==> r == Ok(Number(|args[0].elements| as real))
    ensures args[0].String? ==> r == Ok(Number(Utf8Len(args[0].s) as real))
    ensures r.Err? ==> r.error == "length: argument must be an array or string"
  {
    match args[0]
    case Array(es) => Ok(Number(|es| as real))
    case String(s) => Ok(Number(Utf8Len(s) as real))
    case _ => Err("length: argument must be an array or string")
  }

  /** `push`: the old elements followed by the new one. The item is only
      read when the first argument is an Array. */
  function Push(args: seq<Value>): (r: Result<Value, string>)
    requires |args| >= 1 && (args[0].Array? ==> |args| >= 2)
    ensures r.Ok? <==> args[0].Array?
    ensures r.Ok? ==> r.value.Array? && |r.value.elements| == |args[0].elements| + 1
    ensures r.Ok? ==> r.value.elements[..|args[0].elements|] == args[0].elements
    ensures r.Ok? ==> r.value.elements[|args[0].elements|] == args[1]
    ensures r.Err? ==> r.error == "push: first argument must be an array"
  {
    match args[0]
    case Array(es) => Ok(Array(es + [args[1]]))
    case _ => Err("push: first argument must be an array")
  }

  /** `pop`: the last element. The array itself is a clone and is dropped,
      so the caller's array still holds that element. */
  function Pop(args: seq<Value>): (r: Result<Value, string>)
    requires |args| >= 1
    ensures r.Ok? <==> args[0].Array? && args[0].elements != []
    ensures r.Ok? ==> r.value == args[0].elements[|args[0].elements| - 1]
    ensures args[0].Array? && args[0].elements == [] ==>
      r == Err("pop: cannot pop from empty array")
    ensures !args[0].Array? ==> r == Err("pop: argument must be an array")
  {
    match args[0]
    case Array(es) =>
      if es == [] then Err("pop: cannot pop from empty array") else Ok(es[|es| - 1])
    case _ => Err("pop: argument must be an array")
  }

  function OutOfBounds(op: string, idx: nat, kind: string, len: nat): string
  {
    op + ": index " + NatToString(idx) + " out of bounds (" + kind + " length: " + NatToString(len) + ")"
  }

  /** `get`, counting a String's length in characters. An Array yields the
      element at the index, a String the one-character String there. */
  function Get(args: seq<Value>): (r: Result<Value, string>)
    requires |args| >= 2
    ensures r.Ok? <==>
      args[1].Number? &&
      ((args[0].Array? && ToUsize(args[1].n) < |args[0].elements|) ||
       (args[0].String? && ToUsize(args[1].n) < |args[0].s|))
    ensures r.Ok? && args[0].Array? ==> r.value == args[0].elements[ToUsize(args[1].n)]
    ensures r.Ok? && args[0].String? ==> r.value == String([args[0].s[ToUsize(args[1].n)]])
    ensures (args[0].Array? || args[0].String?) && !args[1].Number? ==>
      r == Err("get: second argument must be a number (index)")
    ensures !args[0].Array? && !args[0].String? ==>
      r == Err("get: first argument must be an array or string")
  {
    if !args[0].Array? && !args[0].String? then Err("get: first argument must be an array or string")
    else if !args[1].Number? then Err("get: second argument must be a number (index)")
    else
      var idx := ToUsize(args[1].n);
      match args[0]
      case Array(es) =>
        if idx < |es| then Ok(es[idx]) else Err(OutOfBounds("get", idx, "array", |es|))
      case String(s) =>
        if idx < |s| then Ok(String([s[idx]])) else Err(OutOfBounds("get", idx, "string", |s|))
  }

  /** `get` as written: the String index is checked against the byte length
      and then taken by character, so `chars().nth(idx).unwrap()` panics
      (`None`) for an index between the character count and the byte length. */
  function GetAsWritten(args: seq<Value>): (r: Option<Result<Value, string>>)
    requires |args| >= 2
    ensures r.None? <==>
      args[0].String? && args[1].Number? &&
      |args[0].s| <= ToUsize(args[1].n) < Utf8Len(args[0].s)
  {
    match (args[0], args[1])
    case (String(s), Number(x)) =>
      var idx := ToUsize(x);
      if idx < Utf8Len(s) then
        if idx < |s| then Some(Ok(String([s[idx]]))) else None
      else Some(Err(OutOfBounds("get", idx, "string", Utf8Len(s))))
    case _ => Some(Get(args))
  }

  /** Whether `set` goes on to read its third argument: the index is a
      Number within the bounds the source checks first. */
  predicate SetReadsValue(args: seq<Value>)
    requires |args| >= 2
  {
    args[1].Number? &&
    ((args[0].Array? && ToUsize(args[1].n) < |args[0].elements|) ||
     (args[0].String? && ToUsize(args[1].n) < Utf8Len(args[0].s)))
  }

  /** A String, a Number index within its characters, and a String
      replacement: the case in which `set` looks at the replacement. */
  predicate SetReplaces(args: seq<Value>)
  {
    |args| >= 3 && args[0].String? && args[1].Number? && ToUsize(args[1].n) < |args[0].s| &&
    args[2].String?
  }

  /** `set`, counting a String's length in characters. An Array gets the
      new value at the index; a String gets the single character of the
      replacement there. */
  function Set(args: seq<Value>): (r: Result<Value, string>)
    requires |args| >= 2 && (SetReadsValue(args) ==> |args| >= 3)
    ensures r.Ok? <==>
      args[1].Number? &&
      ((args[0].Array? && ToUsize(args[1].n) < |args[0].elements|) ||
       (args[0].String? && ToUsize(args[1].n) < |args[0].s| &&
        args[2].String? && |args[2].s| == 1))
    ensures r.Ok? && args[0].Array? ==>
      r.value == Array(args[0].elements[ToUsize(args[1].n) := args[2]])
    ensures r.Ok? && args[0].String? ==>
      r.value == String(args[0].s[ToUsize(args[1].n) := args[2].s[0]])
    ensures SetReplaces(args) && |args[2].s| != 1 ==>
      r == Err("set: replacement must be a single character")
    ensures (args[0].Array? || args[0].String?) && !args[1].Number? ==>
      r == Err("set: second argument must be a number (index)")
    ensures !args[0].Array? && !args[0].String? ==>
      r == Err("set: first argument must be an array or string")
  {
    if !args[0].Array? && !args[0].String? then Err("set: first argument must be an array or string")
    else if !args[1].Number? then Err("set: second argument must be a number (index)")
    else
      var idx := ToUsize(args[1].n);
      match args[0]
      case Array(es) =>
        if idx < |es| then Ok(Array(es[idx := args[2]]))
        else Err(OutOfBounds("set", idx, "array", |es|))
      case String(s) =>
        if idx >= |s| then Err(OutOfBounds("set", idx, "string", |s|))
        else if !args[2].String? then Err("set: third argument must be a string (character)")
        else if |args[2].s| != 1 then Err("set: replacement must be a single character")
        else Ok(String(s[idx := args[2].s[0]]))
  }

  /** A string of UTF-8 length 1 is a single character. */
  lemma OneByte(c: string)
    requires Utf8Len(c) == 1
    ensures |c| == 1
  {
    assert c != [];
  }

  /** `set` as written: both the index and the replacement are measured in
      bytes, so a replacement such as "é" is refused, and an index between
      the character count and the byte length panics at `chars[idx]`. */
  function SetAsWritten(args: seq<Value>): (r: Option<Result<Value, string>>)
    requires |args| >= 2 && (SetReadsValue(args) ==> |args| >= 3)
    ensures r.None? <==>
      args[0].String? && args[1].Number? &&
      |args[0].s| <= ToUsize(args[1].n) < Utf8Len(args[0].s) &&
      args[2].String? && Utf8Len(args[2].s) == 1
  {
    match (args[0], args[1])
    case (String(s), Number(x)) =>
      var idx := ToUsize(x);
      if idx >= Utf8Len(s) then Some(Err(OutOfBounds("set", idx, "string", Utf8Len(s))))
      else
        (match args[2]
         case String(c) =>
           if Utf8Len(c) != 1 then Some(Err("set: replacement must be a single character"))
           else
             OneByte(c);
             if idx < |s| then Some(Ok(String(s[idx := c[0]]))) else None
         case _ => Some(Err("set: third argument must be a string (character)")))
    case _ => Some(Set(args))
  }

  /** `concat`: the first Array's elements followed by the second's. */
  function Concat(args: seq<Value>): (r: Result<Value, string>)
    requires |args| >= 2
    ensures r.Ok? <==> args[0].Array? && args[1].Array?
    ensures r.Ok? ==>
      r.value.Array? &&
      |r.value.elements| == |args[0].elements| + |args[1].elements| &&
      r.value.elements[..|args[0].elements|] == args[0].elements &&
      r.value.elements[|args[0].elements|..] == args[1].elements
    ensures args[0].Array? && !args[1].Array? ==> r == Err("concat: second argument must be an array")
    ensures !args[0].Array? ==> r == Err("concat: first argument must be an array")
  {
    match (args[0], args[1])
    case (Array(xs), Array(ys)) => Ok(Array(xs + ys))
    case (Array(_), _) => Err("concat: second argument must be an array")
    case _ => Err("concat: first argument must be an array")
  }

  /** The kinds of value `join`'s match has an arm for: it has none for
      Object or Namespace. */
  predicate Joinable(v: Value)
  {
    !v.Object? && !v.Namespace?
  }

  /** How `join` writes one element. Numbers are printed by `show`
      (`f64::to_string`) with a trailing ".0" removed. */
  function ElementText(v: Value, show: real -> string): string
    requires Joinable(v)
  {
    match v
    case String(s) => s
    case Number(n) => TrimPointZero(show(n))
    case Boolean(b) => if b then "true" else "false"
    case Nil => "nil"
    case Function(name, _, _) => "<fn " + name + ">"
    case NativeFunction(name, _) => "<native fn " + name + ">"
    case Array(_) => "[array]"
  }

  /** The texts of the first `n` elements. */
  function ElementTexts(es: seq<Value>, n: nat, show: real -> string): (r: seq<string>)
    requires n <= |es| && forall i :: 0 <= i < |es| ==> Joinable(es[i])
    ensures |r| == n && forall i :: 0 <= i < n ==> r[i] == ElementText(es[i], show)
  {
    if n == 0 then [] else ElementTexts(es, n - 1, show) + [ElementText(es[n - 1], show)]
  }

  /** `join`'s argument requirement: its match is exhaustive only for an
      Array holding no Object and no Namespace. */
  predicate JoinDefined(args: seq<Value>)
    requires |args| >= 2
  {
    args[0].Array? && args[1].String? ==>
      forall i :: 0 <= i < |args[0].elements| ==> Joinable(args[0].elements[i])
  }

  /** `join`: the texts of the elements with the separator between each
      two of them. */
  method ArrayJoin(args: seq<Value>, show: real -> string) returns (r: Result<Value, string>)
    requires |args| >= 2 && JoinDefined(args)
    ensures r.Ok? <==> args[0].Array? && args[1].String?
    ensures r.Ok? ==> r == Ok(String(Join(ElementTexts(args[0].elements, |args[0].elements|, show), args[1].s)))
    ensures args[0].Array? && !args[1].String? ==> r == Err("join: second argument must be a string")
    ensures !args[0].Array? ==> r == Err("join: first argument must be an array")
  {
    match (args[0], args[1]) {
      case (Array(es), String(sep)) =>
        var result := "";
        for i := 0 to |es|
          invariant result == Join(ElementTexts(es, i, show), sep)
        {
          if i > 0 {
            result := result + sep;
          }
          JoinSnoc(ElementTexts(es, i, show), ElementText(es[i], show), sep);
          result := result + ElementText(es[i], show);
        }
        r := Ok(String(result));
      case (Array(_), _) =>
        r := Err("join: second argument must be a string");
      case _ =>
        r := Err("join: first argument must be an array");
    }
  }

  /** How far a slice reaches: `min(start + length, len)`. */
  function SliceEnd(start: nat, length: nat, len: nat): nat
  {
    if start + length < len then start + length else len
  }

  /** The length argument of `slice`, when there is one: `None` when it is
      absent, an error when it is not a Number. */
  function LengthArgument(args: seq<Value>): (r: Result<Option<nat>, string>)
    requires 2 <= |args| <= 3
  {
    if |args| == 3 then
      if args[2].Number? then Ok(Some(ToUsize(args[2].n)))
      else Err("slice: third argument (length) must be a number")
    else Ok(None)
  }

  /** Arguments `slice` accepts: two or three, a Number start within the
      Array or String (counted in characters), and a Number length if any. */
  predicate SliceInRange(args: seq<Value>)
  {
    2 <= |args| <= 3 && (|args| == 3 ==> args[2].Number?) && args[1].Number? &&
    ((args[0].Array? && ToUsize(args[1].n) <= |args[0].elements|) ||
     (args[0].String? && ToUsize(args[1].n) <= |args[0].s|))
  }

  /** `slice`, counting a String's length in characters: from `start`, at
      most `length` elements (all the rest when no length is given). */
  function Slice(args: seq<Value>): (r: Result<Value, string>)
    ensures |args| < 2 || |args| > 3 ==> r == Err("slice: requires 2 or 3 arguments")
    ensures |args| == 3 && !args[2].Number? ==>
      r == Err("slice: third argument (length) must be a number")
    ensures r.Ok? ==> 2 <= |args| <= 3 && args[1].Number? && (args[0].Array? || args[0].String?)
    ensures r.Ok? && args[0].Array? ==>
      r.value.Array? &&
      var es, start := args[0].elements, ToUsize(args[1].n);
      start <= |es| &&
      r.value.elements == es[start..if |args| == 3 then SliceEnd(start, ToUsize(args[2].n), |es|) else |es|]
    ensures r.Ok? && args[0].String? ==>
      r.value.String? &&
      var s, start := args[0].s, ToUsize(args[1].n);
      start <= |s| &&
      r.value.s == s[start..if |args| == 3 then SliceEnd(start, ToUsize(args[2].n), |s|) else |s|]
    ensures SliceInRange(args) ==> r.Ok?
  {
    if |args| < 2 || |args| > 3 then Err("slice: requires 2 or 3 arguments")
    else
      match LengthArgument(args)
      case Err(e) => Err(e)
      case Ok(lengthArg) =>
        match (args[0], args[1])
        case (Array(es), Number(x)) =>
          var start := ToUsize(x);
          if start > |es| then
            Err("slice: start index " + NatToString(start) + " out of bounds (array length: " + NatToString(|es|) + ")")
          else
            var length := if lengthArg.Some? then lengthArg.value else |es| - start;
            Ok(Array(es[start..SliceEnd(start, length, |es|)]))
        case (String(s), Number(x)) =>
          var start := ToUsize(x);
          if start > |s| then
            Err("slice: start index " + NatToString(start) + " out of bounds (string length: " + NatToString(|s|) + ")")
          else
            var length := if lengthArg.Some? then lengthArg.value else |s| - start;
            Ok(String(s[start..SliceEnd(start, length, |s|)]))
        case _ => Err("slice: first argument must be an array or string")
  }

  /** `slice` as written. `start + length` is `usize` arithmetic, which
      panics on overflow in a debug build and in a release build wraps to
      below `start`, so that `elements[start..end]` panics: either way a
      length that reaches past `UsizeMax` is a panic. A String's start is
      checked against its byte length, so a start past the character count
      panics as well (`chars.len() - start` underflows, or the range is
      reversed). */
  function SliceAsWritten(args: seq<Value>): (r: Option<Result<Value, string>>)
    ensures r.None? ==> 2 <= |args| <= 3 && args[1].Number? && (args[0].Array? || args[0].String?)
    ensures r.None? && args[0].Array? ==>
      |args| == 3 && args[2].Number? && ToUsize(args[1].n) + ToUsize(args[2].n) > UsizeMax
  {
    if |args| < 2 || |args| > 3 then Some(Err("slice: requires 2 or 3 arguments"))
    else
      match LengthArgument(args)
      case Err(e) => Some(Err(e))
      case Ok(lengthArg) =>
        match (args[0], args[1])
        case (Array(es), Number(x)) =>
          var start := ToUsize(x);
          if start > |es| then Some(Slice(args))
          else if lengthArg.Some? && start + lengthArg.value > UsizeMax then None
          else Some(Slice(args))
        case (String(s), Number(x)) =>
          var start := ToUsize(x);
          if start > Utf8Len(s) then
            Some(Err("slice: start index " + NatToString(start) + " out of bounds (string length: " + NatToString(Utf8Len(s)) + ")"))
          else if start > |s| then None
          else if lengthArg.Some? && start + lengthArg.value > UsizeMax then None
          else Some(Slice(args))
        case _ => Some(Slice(args))
  }
}
