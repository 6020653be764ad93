/** `value_to_json_string` and `json_stringify` of `src/stdlib/json.rs`: a
    recursive function whose `for` loops accumulate a local string. Each
    method is proved to produce `JsonSyntax.ToJson`. */
module JsonWriting {
  import opened Wrappers
  import opened Text
  import opened Values
  import opened JsonSyntax

  /** `json_stringify`: always succeeds on the values it has a case for. */
  method JsonStringify(args: seq<Value>, show: real -> string) returns (r: Result<Value, string>)
    requires |args| >= 1 && Serializable(args[0])
    ensures r == Ok(String(ToJson(args[0], show)))
  {
    var text := ValueToJsonString(args[0], show);
    r := Ok(String(text));
  }

  /** `value_to_json_string`. */
  method ValueToJsonString(v: Value, show: real -> string) returns (text: string)
    requires Serializable(v)
    ensures text == ToJson(v, show)
    decreases v, 2
  {
    match v {
      case Number(n) => text := show(n);
      case String(s) => text := QuoteString(s);
      case Boolean(b) => text := if b then "true" else "false";
      case Nil => text := "null";
      case Array(es) =>
        if IsPairList(es) {
          text := WriteObject(v, show);
        } else {
          text := WriteArray(v, show);
        }
      case Function(_, _, _) => text := "null";
      case NativeFunction(_, _) => text := "null";
    }
  }

  /** The String case: each character escaped, between quotes. */
  method QuoteString(s: string) returns (text: string)
    ensures text == Quote(s)
  {
    var body := "";
    for i := 0 to |s|
      invariant body == Escaped(s[..i])
    {
      assert s[..i + 1][..i] == s[..i];
      body := body + Escape(s[i]);
    }
    assert s[..|s|] == s;
    text := "\"" + body + "\"";
  }

  /** An Array that is not a list of pairs: `[`, the elements separated by
      ", ", `]`. */
  method WriteArray(v: Value, show: real -> string) returns (text: string)
    requires v.Array? && Serializable(v) && !IsPairList(v.elements)
    ensures text == ToJson(v, show)
    decreases v, 1
  {
    var es := v.elements;
    var body := "";
    for i := 0 to |es|
      invariant body == Join(ElementJsons(v, i, show), ", ")
    {
      if i > 0 {
        body := body + ", ";
      }
      var item := ValueToJsonString(es[i], show);
      JoinSnoc(ElementJsons(v, i, show), item, ", ");
      body := body + item;
    }
    text := "[" + body + "]";
  }

  /** A non-empty Array of `[String, value]` pairs: written as an object. */
  method WriteObject(v: Value, show: real -> string) returns (text: string)
    requires v.Array? && Serializable(v) && IsPairList(v.elements)
    ensures text == ToJson(v, show)
    decreases v, 1
  {
    var es := v.elements;
    var body := "";
    for i := 0 to |es|
      invariant body == Join(MemberJsons(v, i, show), ", ")
    {
      if i > 0 {
        body := body + ", ";
      }
      var pair := es[i].elements;
      assert Serializable(es[i]) && pair[1] < es[i];
      var member := WriteMember(pair[0].s, pair[1], show);
      JoinSnoc(MemberJsons(v, i, show), member, ", ");
      body := body + member;
    }
    text := "{" + body + "}";
  }

  /** One member of an object: the key as a JSON string, `: `, the value. */
  method WriteMember(key: string, value: Value, show: real -> string) returns (text: string)
    requires Serializable(value)
    ensures text == Member(key, value, show)
    decreases value, 3
  {
    var k := QuoteString(key);
    var j := ValueToJsonString(value, show);
    text := k + ": " + j;
  }
}
