/** Runtime values of the interpreter and the operations defined on them
    directly (`Value::{is_callable, get_property, set_property}`, truthiness
    and the equality `==` uses). */
module Values {
  import opened Wrappers
  import Ast

  /** A runtime value. A user function carries its declaration (name,
      parameter names, body) and nothing else: no environment is captured.
      A native function is known by name and arity; what it computes is
      supplied by the host (see `Semantics.Host`). */
  datatype Value =
    | Number(n: real)
    | String(s: string)
    | Boolean(b: bool)
    | Function(name: string, params: seq<string>, body: seq<Ast.Stmt>)
    | NativeFunction(name: string, arity: nat)
    | Array(elements: seq<Value>)
    | Object(properties: map<string, Value>)
    | Namespace(name: string, properties: map<string, Value>)
    | Nil

  /** `is_truthy`: only `nil` and `false` are false. */
  predicate Truthy(v: Value)
  {
    match v
    case Nil => false
    case Boolean(b) => b
    case _ => true
  }

  lemma TruthyExactly(v: Value)
    ensures !Truthy(v) <==> v == Nil || v == Boolean(false)
    ensures Truthy(Number(0.0)) && Truthy(String("")) && Truthy(Array([]))
  {
  }

  /** `is_callable`. */
  predicate IsCallable(v: Value)
  {
    v.Function? || v.NativeFunction?
  }

  /** The equality `==` and `!=` use (the derived `PartialEq` of `Value`):
      structural, except that two user functions, or two native functions,
      are equal exactly when their names are, whatever their bodies. Two
      maps are equal when they have the same keys and equal values. */
  predicate ValuesEqual(a: Value, b: Value)
    decreases a
  {
    match (a, b)
    case (Number(x), Number(y)) => x == y
    case (String(x), String(y)) => x == y
    case (Boolean(x), Boolean(y)) => x == y
    case (Function(f, _, _), Function(g, _, _)) => f == g
    case (NativeFunction(f, _), NativeFunction(g, _)) => f == g
    case (Array(xs), Array(ys)) =>
      |xs| == |ys| && forall i :: 0 <= i < |xs| ==> ValuesEqual(xs[i], ys[i])
    case (Object(m), Object(n)) => MapsEqual(a, m, n)
    case (Namespace(x, m), Namespace(y, n)) => x == y && MapsEqual(a, m, n)
    case (Nil, Nil) => true
    case _ => false
  }

  /** Equality of the property maps of `owner` and another value. */
  predicate MapsEqual(owner: Value, m: map<string, Value>, n: map<string, Value>)
    requires (owner.Object? || owner.Namespace?) && m == owner.properties
    decreases owner, 0
  {
    m.Keys == n.Keys && forall k :: k in m ==> ValuesEqual(m[k], n[k])
  }

  lemma {:induction false} ValuesEqualReflexive(a: Value)
    ensures ValuesEqual(a, a)
    decreases a
  {
    match a
    case Array(xs) =>
      forall i | 0 <= i < |xs|
        ensures ValuesEqual(xs[i], xs[i])
      {
        ValuesEqualReflexive(xs[i]);
      }
    case Object(m) =>
      forall k | k in m
        ensures ValuesEqual(m[k], m[k])
      {
        ValuesEqualReflexive(m[k]);
      }
    case Namespace(_, m) =>
      forall k | k in m
        ensures ValuesEqual(m[k], m[k])
      {
        ValuesEqualReflexive(m[k]);
      }
    case _ =>
  }

  lemma {:induction false} ValuesEqualSymmetric(a: Value, b: Value)
    requires ValuesEqual(a, b)
    ensures ValuesEqual(b, a)
    decreases a
  {
    match (a, b)
    case (Array(xs), Array(ys)) =>
      forall i | 0 <= i < |ys|
        ensures ValuesEqual(ys[i], xs[i])
      {
        ValuesEqualSymmetric(xs[i], ys[i]);
      }
    case (Object(m), Object(n)) =>
      forall k | k in n
        ensures ValuesEqual(n[k], m[k])
      {
        ValuesEqualSymmetric(m[k], n[k]);
      }
    case (Namespace(_, m), Namespace(_, n)) =>
      forall k | k in n
        ensures ValuesEqual(n[k], m[k])
      {
        ValuesEqualSymmetric(m[k], n[k]);
      }
    case _ =>
  }

  /** Functions are compared by name only: two declarations with the same
      name and different bodies are `==`. Values of different kinds never are. */
  lemma FunctionsEqualByName(p1: seq<string>, b1: seq<Ast.Stmt>, p2: seq<string>, b2: seq<Ast.Stmt>, v: Value)
    ensures ValuesEqual(Function("f", p1, b1), Function("f", p2, b2))
    ensures !ValuesEqual(Function("f", p1, b1), Function("g", p1, b1))
    ensures !ValuesEqual(Number(0.0), String("0")) && !ValuesEqual(Nil, Boolean(false))
  {
  }

  /** `get_property`: the named entry of an Object or a Namespace; no
      property on any other value. */
  function GetProperty(v: Value, name: string): (r: Option<Value>)
    ensures r.Some? <==> (v.Object? || v.Namespace?) && name in v.properties
    ensures r.Some? ==> r.value == v.properties[name]
  {
    match v
    case Object(m) => if name in m then Some(m[name]) else None
    case Namespace(_, m) => if name in m then Some(m[name]) else None
    case _ => None
  }

  /** `set_property`: the Object or Namespace with `name` bound to `value`
      (the source updates it in place); any other value is an error. */
  function SetProperty(v: Value, name: string, value: Value): (r: Result<Value, string>)
    ensures r.Ok? <==> v.Object? || v.Namespace?
    ensures v.Object? ==> r == Ok(Object(v.properties[name := value]))
    ensures v.Namespace? ==> r == Ok(Namespace(v.name, v.properties[name := value]))
    ensures r.Err? ==> r.error == "Cannot set property '" + name + "' on non-object value"
  {
    match v
    case Object(m) => Ok(Object(m[name := value]))
    case Namespace(n, m) => Ok(Namespace(n, m[name := value]))
    case _ => Err("Cannot set property '" + name + "' on non-object value")
  }

  /** Reading a property back after setting it gives the value set, and
      every other property is unchanged. */
  lemma {:induction false} GetAfterSet(v: Value, name: string, value: Value, other: string)
    requires v.Object? || v.Namespace?
    ensures GetProperty(SetProperty(v, name, value).value, name) == Some(value)
    ensures other != name ==>
      GetProperty(SetProperty(v, name, value).value, other) == GetProperty(v, other)
  {
    var w := SetProperty(v, name, value).value;
    assert w.properties == v.properties[name := value];
  }
}
