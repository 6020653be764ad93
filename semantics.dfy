/** The evaluator (`Interpreter::{interpret, execute, evaluate}`) as
    functions of the statement or expression, the interpreter state (the
    frame stack and the printed lines) and a fuel bound.

    Fuel is spent on each `while` iteration and each call of a user
    function, the only two ways a program can run without bound; running
    out yields the `OutOfFuel` signal, which the source does not have. Every
    other result is the source's. */
module Semantics {
  import opened Wrappers
  import opened Text
  import opened Ast
  import opened Values
  import opened Env
  import opened Render
  import Tokens

  /** What the evaluator cannot see: the native functions registered by
      the standard library, and the printer's number format and key order. */
  datatype Host = Host(callNative: (string, seq<Value>) -> Result<Value, string>, printer: Printer)

  /** `RuntimeError`: a return travelling to its call, or an error. */
  datatype Signal = Return(value: Value) | Error(message: string) | OutOfFuel

  /** The frame stack (innermost last) and the lines `print` has written. */
  datatype State = State(frames: Frames, out: seq<string>)

  datatype Flow = Normal | Abrupt(signal: Signal)

  datatype ExecOut = ExecOut(flow: Flow, st: State)
  datatype EvalOut = EvalOut(result: Result<Value, Signal>, st: State)
  datatype ListOut = ListOut(result: Result<seq<Value>, Signal>, st: State)

  /** Evaluating an expression keeps the names of every frame, and printing
      only ever appends. */
  ghost predicate Keeps(a: State, b: State)
  {
    SameShape(a.frames, b.frames) && a.out <= b.out
  }

  /** Executing a statement may in addition define names in the innermost frame. */
  ghost predicate Steps(a: State, b: State)
  {
    Grows(a.frames, b.frames) && a.out <= b.out
  }

  function UndefinedVariable(name: string): string
  {
    "Undefined variable '" + name + "'."
  }

  function ArityMismatch(expected: nat, got: nat): string
  {
    "Expected " + NatToString(expected) + " arguments but got " + NatToString(got) + "."
  }

  function LiteralValue(lit: Literal): Value
  {
    match lit
    case Number(n) => Value.Number(n)
    case String(s) => Value.String(s)
    case Boolean(b) => Value.Boolean(b)
    case Nil => Value.Nil
  }

  function Raise<T>(r: Result<T, string>): Result<T, Signal>
  {
    match r
    case Ok(v) => Ok(v)
    case Err(m) => Err(Error(m))
  }

  /** The prefix operators `-` and `!`. */
  function EvalUnary(op: Tokens.TokenType, v: Value): Result<Value, string>
  {
    match op
    case Minus => if v.Number? then Ok(Value.Number(-v.n)) else Err("Operand must be a number.")
    case Bang => Ok(Value.Boolean(!Truthy(v)))
    case _ => Err("Invalid unary operator.")
  }

  const NumbersExpected := "Operands must be numbers."

  /** The infix operators, applied to evaluated operands. */
  function EvalBinary(op: Tokens.TokenType, l: Value, r: Value): Result<Value, string>
  {
    var nums := l.Number? && r.Number?;
    match op
    case Minus => if nums then Ok(Value.Number(l.n - r.n)) else Err(NumbersExpected)
    case Slash =>
      if !nums then Err(NumbersExpected)
      else if r.n == 0.0 then Err("Division by zero.")
      else Ok(Value.Number(l.n / r.n))
    case Star => if nums then Ok(Value.Number(l.n * r.n)) else Err(NumbersExpected)
    case Plus =>
      if nums then Ok(Value.Number(l.n + r.n))
      else if l.String? && r.String? then Ok(Value.String(l.s + r.s))
      else Err("Operands must be two numbers or two strings.")
    case Greater => if nums then Ok(Value.Boolean(l.n > r.n)) else Err(NumbersExpected)
    case GreaterEqual => if nums then Ok(Value.Boolean(l.n >= r.n)) else Err(NumbersExpected)
    case Less => if nums then Ok(Value.Boolean(l.n < r.n)) else Err(NumbersExpected)
    case LessEqual => if nums then Ok(Value.Boolean(l.n <= r.n)) else Err(NumbersExpected)
    case BangEqual => Ok(Value.Boolean(!ValuesEqual(l, r)))
    case EqualEqual => Ok(Value.Boolean(ValuesEqual(l, r)))
    case _ => Err("Invalid binary operator.")
  }

  /** `object.name`: a property of an Object or a Namespace, or the
      `length` of an Array (its element count) or of a String (its UTF-8
      byte count). */
  function PropertyOf(v: Value, name: string): Result<Value, string>
  {
    match v
    case Object(_) =>
      if name in v.properties then Ok(v.properties[name]) else Err("Property '" + name + "' not found.")
    case Namespace(_, _) =>
      if name in v.properties then Ok(v.properties[name]) else Err("Property '" + name + "' not found.")
    case Array(es) =>
      if name == "length" then Ok(Value.Number(|es| as real)) else Err("Array has no property '" + name + "'.")
    case String(s) =>
      if name == "length" then Ok(Value.Number(Utf8Len(s) as real)) else Err("String has no property '" + name + "'.")
    case _ => Err("Cannot access properties of non-object value.")
  }

  /** The frame a call pushes: each parameter bound to its argument, in
      order, so that a repeated parameter name keeps the last argument. */
  function Bind(params: seq<string>, args: seq<Value>): map<string, Value>
    requires |params| == |args|
  {
    if params == [] then map[]
    else Bind(params[..|params| - 1], args[..|args| - 1])[params[|params| - 1] := args[|args| - 1]]
  }

  function Eval(e: Expr, st: State, fuel: nat, host: Host): (r: EvalOut)
    requires |st.frames| >= 1
    ensures Keeps(st, r.st)
    decreases fuel, ExprSize(e), 0
  {
    match e
    case Literal(lit) => EvalOut(Ok(LiteralValue(lit)), st)
    case Grouping(inner) => Eval(inner, st, fuel, host)
    case Unary(op, right) =>
      var a := Eval(right, st, fuel, host);
      if a.result.Err? then a
      else EvalOut(Raise(EvalUnary(op, a.result.value)), a.st)
    case Binary(left, op, right) =>
      var a := Eval(left, st, fuel, host);
      if a.result.Err? then a
      else
        var b := Eval(right, a.st, fuel, host);
        if b.result.Err? then b
        else EvalOut(Raise(EvalBinary(op, a.result.value, b.result.value)), b.st)
    case Variable(name) =>
      (match Lookup(st.frames, name)
       case Some(v) => EvalOut(Ok(v), st)
       case None => EvalOut(Err(Error(UndefinedVariable(name))), st))
    case Assign(name, value) =>
      var a := Eval(value, st, fuel, host);
      if a.result.Err? then a
      else
        (match Env.Assign(a.st.frames, name, a.result.value)
         case Some(frames) =>
           AssignKeepsShape(a.st.frames, name, a.result.value);
           EvalOut(a.result, State(frames, a.st.out))
         case None => EvalOut(Err(Error(UndefinedVariable(name))), a.st))
    case Logical(left, op, right) =>
      var a := Eval(left, st, fuel, host);
      if a.result.Err? then a
      else if op == Tokens.Or then
        if Truthy(a.result.value) then a else Eval(right, a.st, fuel, host)
      else if op == Tokens.And then
        if !Truthy(a.result.value) then a else Eval(right, a.st, fuel, host)
      else EvalOut(Err(Error("Invalid logical operator.")), a.st)
    case Call(callee, arguments) =>
      var c := Eval(callee, st, fuel, host);
      if c.result.Err? then c
      else
        var a := EvalList(arguments, [], c.st, fuel, host);
        if a.result.Err? then EvalOut(Err(a.result.error), a.st)
        else if !IsCallable(c.result.value) then
          EvalOut(Err(Error("Can only call functions and classes.")), a.st)
        else CallValue(c.result.value, a.result.value, a.st, fuel, host)
    case Get(obj, name) =>
      var o := Eval(obj, st, fuel, host);
      if o.result.Err? then o
      else EvalOut(Raise(PropertyOf(o.result.value, name)), o.st)
    case Method(obj, name, arguments) =>
      var o := Eval(obj, st, fuel, host);
      if o.result.Err? then o
      else
        var a := EvalList(arguments, [], o.st, fuel, host);
        if a.result.Err? then EvalOut(Err(a.result.error), a.st)
        else if !(o.result.value.Object? || o.result.value.Namespace?) then
          EvalOut(Err(Error("Cannot call methods on non-object value.")), a.st)
        else
          (match GetProperty(o.result.value, name)
           case None => EvalOut(Err(Error("Method '" + name + "' not found.")), a.st)
           case Some(m) =>
             if !IsCallable(m) then EvalOut(Err(Error("Property '" + name + "' is not a method.")), a.st)
             else CallValue(m, a.result.value, a.st, fuel, host))
    case Array(elements) =>
      var a := EvalList(elements, [], st, fuel, host);
      if a.result.Err? then EvalOut(Err(a.result.error), a.st)
      else EvalOut(Ok(Value.Array(a.result.value)), a.st)
  }

  /** Evaluates `es` left to right after the values `acc` already computed;
      the first error stops the list. */
  function EvalList(es: seq<Expr>, acc: seq<Value>, st: State, fuel: nat, host: Host): (r: ListOut)
    requires |st.frames| >= 1
    ensures Keeps(st, r.st)
    ensures r.result.Ok? ==> |r.result.value| == |acc| + |es| && r.result.value[..|acc|] == acc
    decreases fuel, ExprsSize(es), 1
  {
    if es == [] then ListOut(Ok(acc), st)
    else
      var a := Eval(es[0], st, fuel, host);
      if a.result.Err? then ListOut(Err(a.result.error), a.st)
      else EvalList(es[1..], acc + [a.result.value], a.st, fuel, host)
  }

  /** Calls a function value with evaluated arguments. A user function
      needs exactly as many arguments as it has parameters, and a native
      function of nonzero arity exactly that many; a native function of
      arity 0 takes any number. A mismatch is "Expected N arguments but got
      M." and changes nothing. A user function runs its body in a new frame
      pushed on the CALLER's stack (there is no closure); its value is that
      of the first `return` reached, or `nil` when the body completes, an
      error of the body is the call's error, and the callee's frame is
      popped in every case. */
  function CallValue(callee: Value, args: seq<Value>, st: State, fuel: nat, host: Host): (r: EvalOut)
    requires IsCallable(callee) && |st.frames| >= 1
    ensures Keeps(st, r.st)
    decreases fuel, 0, 0
  {
    match callee
    case NativeFunction(name, arity) =>
      if arity != 0 && |args| != arity then EvalOut(Err(Error(ArityMismatch(arity, |args|))), st)
      else EvalOut(Raise(host.callNative(name, args)), st)
    case Function(_, params, body) =>
      if |args| != |params| then EvalOut(Err(Error(ArityMismatch(|params|, |args|))), st)
      else if fuel == 0 then EvalOut(Err(OutOfFuel), st)
      else
        var r := ExecSeq(body, State(st.frames + [Bind(params, args)], st.out), fuel - 1, host);
        var after := State(r.st.frames[..|st.frames|], r.st.out);
        match r.flow
        case Normal => EvalOut(Ok(Value.Nil), after)
        case Abrupt(Return(v)) => EvalOut(Ok(v), after)
        case Abrupt(sig) => EvalOut(Err(sig), after)
  }

  function Exec(s: Stmt, st: State, fuel: nat, host: Host): (r: ExecOut)
    requires |st.frames| >= 1
    ensures Steps(st, r.st)
    decreases fuel, StmtSize(s), 0
  {
    match s
    case Expression(e) =>
      var a := Eval(e, st, fuel, host);
      ExecOut(if a.result.Err? then Abrupt(a.result.error) else Normal, a.st)
    case Print(e) =>
      var a := Eval(e, st, fuel, host);
      if a.result.Err? then ExecOut(Abrupt(a.result.error), a.st)
      else ExecOut(Normal, State(a.st.frames, a.st.out + [Stringify(a.result.value, host.printer)]))
    case Var(name, init) =>
      if init.None? then ExecOut(Normal, State(Define(st.frames, name, Value.Nil), st.out))
      else
        var a := Eval(init.value, st, fuel, host);
        if a.result.Err? then ExecOut(Abrupt(a.result.error), a.st)
        else ExecOut(Normal, State(Define(a.st.frames, name, a.result.value), a.st.out))
    case Block(ss) =>
      var r := ExecSeq(ss, State(st.frames + [map[]], st.out), fuel, host);
      ExecOut(r.flow, State(r.st.frames[..|st.frames|], r.st.out))
    case If(c, t, els) =>
      var a := Eval(c, st, fuel, host);
      if a.result.Err? then ExecOut(Abrupt(a.result.error), a.st)
      else if Truthy(a.result.value) then Exec(t, a.st, fuel, host)
      else if els.None? then ExecOut(Normal, a.st)
      else Exec(els.value, a.st, fuel, host)
    case While(c, b) => Loop(c, b, st, fuel, host)
    case Function(name, params, body) =>
      ExecOut(Normal, State(Define(st.frames, name, Value.Function(name, params, body)), st.out))
    case Return(v) =>
      if v.None? then ExecOut(Abrupt(Signal.Return(Value.Nil)), st)
      else
        var a := Eval(v.value, st, fuel, host);
        if a.result.Err? then ExecOut(Abrupt(a.result.error), a.st)
        else ExecOut(Abrupt(Signal.Return(a.result.value)), a.st)
  }

  /** `while`: test, run the body, repeat; one unit of fuel per iteration. */
  function Loop(c: Expr, b: Stmt, st: State, fuel: nat, host: Host): (r: ExecOut)
    requires |st.frames| >= 1
    ensures Steps(st, r.st)
    decreases fuel, ExprSize(c) + StmtSize(b), 2
  {
    if fuel == 0 then ExecOut(Abrupt(OutOfFuel), st)
    else
      var a := Eval(c, st, fuel, host);
      if a.result.Err? then ExecOut(Abrupt(a.result.error), a.st)
      else if !Truthy(a.result.value) then ExecOut(Normal, a.st)
      else
        var r := Exec(b, a.st, fuel, host);
        if r.flow.Abrupt? then r else Loop(c, b, r.st, fuel - 1, host)
  }

  /** Runs statements in order until one ends abruptly. */
  function ExecSeq(ss: seq<Stmt>, st: State, fuel: nat, host: Host): (r: ExecOut)
    requires |st.frames| >= 1
    ensures Steps(st, r.st)
    decreases fuel, StmtsSize(ss), 1
  {
    if ss == [] then ExecOut(Normal, st)
    else
      var r := Exec(ss[0], st, fuel, host);
      if r.flow.Abrupt? then r else ExecSeq(ss[1..], r.st, fuel, host)
  }

  /** How a whole program ends. */
  datatype Outcome = Completed | Failed(message: string) | Diverged
  datatype RunOut = RunOut(outcome: Outcome, st: State)

  /** `interpret`: top-level statements in order; a `return` outside any
      function is an error, and the first error ends the run. */
  function Interpret(stmts: seq<Stmt>, st: State, fuel: nat, host: Host): (r: RunOut)
    requires |st.frames| >= 1
    ensures Steps(st, r.st)
  {
    if stmts == [] then RunOut(Completed, st)
    else
      var x := Exec(stmts[0], st, fuel, host);
      match x.flow
      case Normal => Interpret(stmts[1..], x.st, fuel, host)
      case Abrupt(Return(_)) => RunOut(Failed("Return statement outside of function"), x.st)
      case Abrupt(Error(m)) => RunOut(Failed(m), x.st)
      case Abrupt(OutOfFuel) => RunOut(Diverged, x.st)
  }
}
