/** `Interpreter::stringify`, the text `print` writes for a value. Two parts
    of it are outside the model and supplied by a `Printer`: the text of a
    number (`f64::to_string` with a trailing ".0" removed) and the order in
    which a `HashMap` yields its keys. */
module Render {
  import opened Text
  import opened Values

  /** The two parts of the printer the program's environment supplies. */
  datatype PrinterParts = PrinterParts(formatNumber: real -> string, keyOrder: map<string, Value> -> seq<string>)

  /** No key occurs twice. */
  predicate Distinct(ks: seq<string>)
  {
    forall i, j :: 0 <= i < j < |ks| ==> ks[i] != ks[j]
  }

  /** `order` lists every key of each map exactly once, as iterating a
      `HashMap` yields each of its keys once. */
  ghost predicate ListsEveryKey(order: map<string, Value> -> seq<string>)
  {
    forall m: map<string, Value> :: Distinct(order(m)) && (forall k :: k in order(m) <==> k in m)
  }

  /** Some listing of the keys of a set, each once. */
  ghost function KeysListed(s: set<string>): (r: seq<string>)
    ensures Distinct(r) && forall k :: k in r <==> k in s
    decreases s
  {
    if s == {} then []
    else
      var k :| k in s;
      [k] + KeysListed(s - {k})
  }

  /** A printer whose key order is some order of the map's own keys. */
  type Printer = p: PrinterParts | ListsEveryKey(p.keyOrder)
    ghost witness PrinterParts((_: real) => "", (m: map<string, Value>) => KeysListed(m.Keys))

  /** A list of distinct keys has as many elements as the set of its keys. */
  lemma {:induction false} DistinctCount(ks: seq<string>)
    requires Distinct(ks)
    ensures |set k | k in ks| == |ks|
    decreases |ks|
  {
    if ks != [] {
      var rest := ks[1..];
      assert Distinct(rest) by {
        forall i, j | 0 <= i < j < |rest|
          ensures rest[i] != rest[j]
        {
          assert rest[i] == ks[i + 1] && rest[j] == ks[j + 1];
        }
      }
      DistinctCount(rest);
      assert ks[0] !in rest by {
        forall i | 0 <= i < |rest|
          ensures rest[i] != ks[0]
        {
          assert rest[i] == ks[i + 1];
        }
      }
      assert (set k | k in ks) == (set k | k in rest) + {ks[0]} by {
        assert ks == [ks[0]] + rest;
      }
    }
  }

  /** The keys of `m` in the printer's iteration order: every key of `m`
      exactly once. */
  function OrderedKeys(m: map<string, Value>, p: Printer): (ks: seq<string>)
    ensures Distinct(ks)
    ensures forall k :: k in ks <==> k in m
    ensures |ks| == |m|
  {
    var ks := p.keyOrder(m);
    DistinctCount(ks);
    assert (set k | k in ks) == m.Keys;
    ks
  }

  function Stringify(v: Value, p: Printer): string
    decreases v, 1
  {
    match v
    case Number(n) => p.formatNumber(n)
    case String(s) => s
    case Boolean(b) => if b then "true" else "false"
    case Nil => "nil"
    case Function(name, _, _) => "<fn " + name + ">"
    case NativeFunction(name, _) => "<native fn " + name + ">"
    case Array(es) => "[" + Join(ElementTexts(v, |es|, p), ", ") + "]"
    case Object(m) =>
      var ks := OrderedKeys(m, p);
      "{" + Join(EntryTexts(v, ks, |ks|, p), ", ") + "}"
    case Namespace(name, m) => "[Namespace: " + name + " {" + Join(OrderedKeys(m, p), ", ") + "}]"
  }

  /** The texts of the first `n` elements of an Array. */
  function ElementTexts(v: Value, n: nat, p: Printer): (r: seq<string>)
    requires v.Array? && n <= |v.elements|
    ensures |r| == n
    decreases v, 0, n
  {
    if n == 0 then [] else ElementTexts(v, n - 1, p) + [Stringify(v.elements[n - 1], p)]
  }

  /** The `key: value` texts of the first `n` listed keys of an Object. */
  function EntryTexts(v: Value, ks: seq<string>, n: nat, p: Printer): (r: seq<string>)
    requires v.Object? && n <= |ks| && forall k :: k in ks ==> k in v.properties
    ensures |r| == n
    decreases v, 0, n
  {
    if n == 0 then []
    else EntryTexts(v, ks, n - 1, p) + [ks[n - 1] + ": " + Stringify(v.properties[ks[n - 1]], p)]
  }

  /** One more entry of an Object's text, with ", " before all but the first. */
  lemma EntryStep(v: Value, ks: seq<string>, i: nat, p: Printer)
    requires v.Object? && i < |ks| && forall k :: k in ks ==> k in v.properties
    ensures Join(EntryTexts(v, ks, i + 1, p), ", ")
         == (if i > 0 then Join(EntryTexts(v, ks, i, p), ", ") + ", " else "")
            + (ks[i] + ": " + Stringify(v.properties[ks[i]], p))
  {
    JoinSnoc(EntryTexts(v, ks, i, p), ks[i] + ": " + Stringify(v.properties[ks[i]], p), ", ");
  }

  /** `stringify`: scalars directly, containers by the loops below. */
  method StringifyValue(v: Value, p: Printer) returns (text: string)
    ensures text == Stringify(v, p)
    decreases v, 2
  {
    match v {
      case Array(_) => text := StringifyArray(v, p);
      case Object(_) => text := StringifyObject(v, p);
      case Namespace(_, _) => text := StringifyNamespace(v, p);
      case _ => text := Stringify(v, p);
    }
  }

  /** The Array loop of `stringify`: ", " before every element but the
      first. The text between the brackets is built first. */
  method StringifyArray(v: Value, p: Printer) returns (text: string)
    requires v.Array?
    ensures text == Stringify(v, p)
    decreases v, 1
  {
    var es := v.elements;
    var body := "";
    for i := 0 to |es|
      invariant body == Join(ElementTexts(v, i, p), ", ")
    {
      if i > 0 {
        body := body + ", ";
      }
      var item := StringifyValue(es[i], p);
      JoinSnoc(ElementTexts(v, i, p), item, ", ");
      body := body + item;
    }
    text := "[" + body + "]";
  }

  /** The Object loop of `stringify`, in the printer's key order. */
  method StringifyObject(v: Value, p: Printer) returns (text: string)
    requires v.Object?
    ensures text == Stringify(v, p)
    decreases v, 1
  {
    var m := v.properties;
    var ks := OrderedKeys(m, p);
    var body := "";
    for i := 0 to |ks|
      invariant body == Join(EntryTexts(v, ks, i, p), ", ")
    {
      var item := StringifyValue(m[ks[i]], p);
      EntryStep(v, ks, i, p);
      if i > 0 {
        body := body + ", ";
      }
      body := body + (ks[i] + ": " + item);
    }
    text := "{" + body + "}";
  }

  /** The Namespace loop of `stringify`: the names of its members only. */
  method StringifyNamespace(v: Value, p: Printer) returns (text: string)
    requires v.Namespace?
    ensures text == Stringify(v, p)
  {
    var ks := OrderedKeys(v.properties, p);
    var body := "";
    for i := 0 to |ks|
      invariant body == Join(ks[..i], ", ")
    {
      if i > 0 {
        body := body + ", ";
      }
      JoinSnoc(ks[..i], ks[i], ", ");
      assert ks[..i + 1] == ks[..i] + [ks[i]];
      body := body + ks[i];
    }
    assert ks[..|ks|] == ks;
    text := "[Namespace: " + v.name + " {" + body + "}]";
  }
}
