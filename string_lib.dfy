/** The string builtins of `src/stdlib/string.rs`: `len`, `upper`, `lower`
    and `as_string`. Unicode case mapping (`str::to_uppercase`,
    `str::to_lowercase`) and number formatting (`f64::to_string`) are
    supplied by the caller as functions; `AsciiUpper` and `AsciiLower`
    are what the case mappings do on ASCII text. */
module StringLib {
  import opened Wrappers
  import opened Text
  import opened Values
  import ArrayLib

  /** `len`: the byte length of a String, the element count of an Array,
      0 for an Object or a Namespace. The argument count is not checked. */
  function Len(args: seq<Value>): (r: Result<Value, string>)
    requires |args| >= 1
    ensures r.Ok? <==> args[0].String? || args[0].Array? || args[0].Object? || args[0].Namespace?
    ensures args[0].String? ==> r == Ok(Number(Utf8Len(args[0].s) as real))
    ensures args[0].Array? ==> r == Ok(Number(|args[0].elements| as real))
    ensures args[0].Object? || args[0].Namespace? ==> r == Ok(Number(0.0))
    ensures r.Err? ==> r.error == "len: argument must be a string or array"
  {
    match args[0]
    case String(s) => Ok(Number(Utf8Len(s) as real))
    case Array(a) => Ok(Number(|a| as real))
    case Object(_) => Ok(Number(0.0))
    case Namespace(_, _) => Ok(Number(0.0))
    case _ => Err("len: argument must be a string or array")
  }

  /** `String.length` and `Array.length` agree on Strings and Arrays; only
      `String.length` accepts an Object or a Namespace. */
  lemma LenAgreesWithLength(v: Value)
    ensures v.String? || v.Array? ==> Len([v]) == ArrayLib.Length([v])
    ensures v.Object? || v.Namespace? ==>
      Len([v]) == Ok(Number(0.0)) && ArrayLib.Length([v]).Err?
    ensures !v.String? && !v.Array? && !v.Object? && !v.Namespace? ==>
      Len([v]).Err? && ArrayLib.Length([v]).Err?
  {
  }

  /** `upper`: exactly one argument, a String, mapped by `toUpper`. */
  function Upper(args: seq<Value>, toUpper: string -> string): (r: Result<Value, string>)
    ensures r.Ok? <==> |args| == 1 && args[0].String?
    ensures r.Ok? ==> r.value == String(toUpper(args[0].s))
    ensures |args| != 1 ==> r == Err("upper: expected 1 argument, got " + NatToString(|args|))
    ensures |args| == 1 && args[0].Object? ==> r == Err("upper: cannot convert object to uppercase")
    ensures |args| == 1 && args[0].Namespace? ==> r == Err("upper: cannot convert namespace to uppercase")
    ensures |args| == 1 && !args[0].String? && !args[0].Object? && !args[0].Namespace? ==>
      r == Err("upper: argument must be a string")
  {
    if |args| != 1 then Err("upper: expected 1 argument, got " + NatToString(|args|))
    else if args[0].String? then Ok(String(toUpper(args[0].s)))
    else if args[0].Object? then Err("upper: cannot convert object to uppercase")
    else if args[0].Namespace? then Err("upper: cannot convert namespace to uppercase")
    else Err("upper: argument must be a string")
  }

  /** `lower`: exactly one argument, a String, mapped by `toLower`. */
  function Lower(args: seq<Value>, toLower: string -> string): (r: Result<Value, string>)
    ensures r.Ok? <==> |args| == 1 && args[0].String?
    ensures r.Ok? ==> r.value == String(toLower(args[0].s))
    ensures |args| != 1 ==> r == Err("lower: expected 1 argument, got " + NatToString(|args|))
    ensures |args| == 1 && args[0].Object? ==> r == Err("lower: cannot convert object to lowercase")
    ensures |args| == 1 && args[0].Namespace? ==> r == Err("lower: cannot convert namespace to lowercase")
    ensures |args| == 1 && !args[0].String? && !args[0].Object? && !args[0].Namespace? ==>
      r == Err("lower: argument must be a string")
  {
    if |args| != 1 then Err("lower: expected 1 argument, got " + NatToString(|args|))
    else if args[0].String? then Ok(String(toLower(args[0].s)))
    else if args[0].Object? then Err("lower: cannot convert object to lowercase")
    else if args[0].Namespace? then Err("lower: cannot convert namespace to lowercase")
    else Err("lower: argument must be a string")
  }

  function UpperChar(c: char): char
  {
    if 'a' <= c <= 'z' then (c as int - 32) as char else c
  }

  function LowerChar(c: char): char
  {
    if 'A' <= c <= 'Z' then (c as int + 32) as char else c
  }

  /** What `to_uppercase` and `to_lowercase` do to ASCII text: only the
      letters change. */
  function AsciiUpper(s: string): string
  {
    seq(|s|, i requires 0 <= i < |s| => UpperChar(s[i]))
  }

  function AsciiLower(s: string): string
  {
    seq(|s|, i requires 0 <= i < |s| => LowerChar(s[i]))
  }

  /** Upper case is idempotent, and lowering an upper-cased text is
      lowering the text. */
  lemma CaseMappings(s: string)
    ensures AsciiUpper(AsciiUpper(s)) == AsciiUpper(s)
    ensures AsciiLower(AsciiUpper(s)) == AsciiLower(s)
  {
    var u := AsciiUpper(s);
    forall i | 0 <= i < |s|
      ensures AsciiUpper(u)[i] == u[i] && AsciiLower(u)[i] == AsciiLower(s)[i]
    {
      assert u[i] == UpperChar(s[i]);
    }
  }

  /** `upper("Hello")` is "HELLO" and `lower("Hello")` is "hello". */
  lemma HelloCases()
    ensures Upper([String("Hello")], AsciiUpper) == Ok(String("HELLO"))
    ensures Lower([String("Hello")], AsciiLower) == Ok(String("hello"))
  {
    assert AsciiUpper("Hello") == "HELLO";
    assert AsciiLower("Hello") == "hello";
  }

  /** How `as_string` writes an element inside an Array: numbers as
      `f64::to_string` prints them, without the ".0" check made at the top
      level, and nested collections and functions in short. */
  function NestedText(v: Value, show: real -> string): string
  {
    match v
    case Number(n) => show(n)
    case String(s) => s
    case Boolean(b) => if b then "true" else "false"
    case Nil => "nil"
    case Array(_) => "[...]"
    case Object(_) => "{...}"
    case Namespace(name, _) => "[Namespace: " + name + "]"
    case Function(_, _, _) => "<function>"
    case NativeFunction(_, _) => "<function>"
  }

  /** The nested texts of the first `n` elements. */
  function NestedTexts(es: seq<Value>, n: nat, show: real -> string): (r: seq<string>)
    requires n <= |es|
    ensures |r| == n && forall i :: 0 <= i < n ==> r[i] == NestedText(es[i], show)
  {
    if n == 0 then [] else NestedTexts(es, n - 1, show) + [NestedText(es[n - 1], show)]
  }

  /** The text `as_string` gives a value. */
  function Shown(v: Value, show: real -> string): string
  {
    match v
    case String(s) => s
    case Number(n) => TrimPointZero(show(n))
    case Boolean(b) => if b then "true" else "false"
    case Nil => "nil"
    case Function(name, _, _) => "<fn " + name + ">"
    case NativeFunction(name, _) => "<native fn " + name + ">"
    case Array(es) => "[" + Join(NestedTexts(es, |es|, show), ", ") + "]"
    case Object(_) => "{object}"
    case Namespace(name, _) => "[Namespace: " + name + "]"
  }

  /** `as_string`: exactly one argument, written as text. */
  method AsString(args: seq<Value>, show: real -> string) returns (r: Result<Value, string>)
    ensures |args| != 1 ==> r == Err("as_string: expected 1 argument, got " + NatToString(|args|))
    ensures |args| == 1 ==> r == Ok(String(Shown(args[0], show)))
  {
    if |args| != 1 {
      return Err("as_string: expected 1 argument, got " + NatToString(|args|));
    }
    match args[0] {
      case Array(a) =>
        var result := "[";
        for i := 0 to |a|
          invariant result == "[" + Join(NestedTexts(a, i, show), ", ")
        {
          if i > 0 {
            result := result + ", ";
          }
          JoinSnoc(NestedTexts(a, i, show), NestedText(a[i], show), ", ");
          result := result + NestedText(a[i], show);
        }
        result := result + "]";
        r := Ok(String(result));
      case _ =>
        r := Ok(String(Shown(args[0], show)));
    }
  }

  /** `as_string` is the identity on Strings, and writes `nil`, Booleans,
      Objects and Namespaces by name. */
  lemma ShownScalars(s: string, b: bool, props: map<string, Value>, name: string, show: real -> string)
    ensures Shown(String(s), show) == s
    ensures Shown(Nil, show) == "nil"
    ensures Shown(Boolean(b), show) == if b then "true" else "false"
    ensures Shown(Object(props), show) == "{object}"
    ensures Shown(Namespace(name, props), show) == "[Namespace: " + name + "]"
  {
  }

  /** Elements that `as_string` and `join` write alike: Strings, Booleans
      and `nil`. */
  predicate Verbatim(v: Value)
  {
    v.String? || v.Boolean? || v.Nil?
  }

  /** On an Array of Strings, Booleans and `nil`, `as_string` is `join`
      with ", " between brackets. */
  lemma {:induction false} ShownArrayIsJoin(es: seq<Value>, show: real -> string)
    requires forall i :: 0 <= i < |es| ==> Verbatim(es[i])
    ensures forall i :: 0 <= i < |es| ==> ArrayLib.Joinable(es[i])
    ensures Shown(Array(es), show) ==
      "[" + Join(ArrayLib.ElementTexts(es, |es|, show), ", ") + "]"
  {
    var nested := NestedTexts(es, |es|, show);
    var joined := ArrayLib.ElementTexts(es, |es|, show);
    forall i | 0 <= i < |es|
      ensures nested[i] == joined[i]
    {
      assert Verbatim(es[i]);
    }
    assert nested == joined;
  }

  /** Inside an Array the nested values are not expanded. `f64::to_string`
      prints a whole number without a fraction (1.0 as "1"), so `[1]` is
      written as "[1]", as the number alone is written as "1". */
  lemma NestedInShort(xs: seq<Value>, show: real -> string)
    requires show(1.0) == "1"
    ensures Shown(Array([Array(xs)]), show) == "[[...]]"
    ensures Shown(Number(1.0), show) == "1"
    ensures Shown(Array([Number(1.0)]), show) == "[1]"
  {
    assert NestedTexts([Number(1.0)], 1, show) == ["1"];
  }

  /** A number whose printed form does not end in ".0" is written the same
      way on its own and as an Array element. */
  lemma NumberShownAlike(n: real, show: real -> string)
    requires !(|show(n)| >= 2 && show(n)[|show(n)| - 2..] == ".0")
    ensures Shown(Array([Number(n)]), show) == "[" + Shown(Number(n), show) + "]"
  {
    assert NestedTexts([Number(n)], 1, show) == [show(n)];
  }
}
