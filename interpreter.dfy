/** The interpreter object: an environment it updates in place and the
    lines printed so far. Each method is proved to compute exactly what the
    corresponding function of `Semantics` says, on the state it starts from. */
module Interp {
  import opened Wrappers
  import opened Ast
  import opened Values
  import opened Env
  import opened Render
  import opened Semantics
  import Tokens

  class Interpreter {
    const environment: Environment
    var output: seq<string>
    const host: Host

    ghost function Current(): State
      reads this, environment
    {
      State(environment.frames, output)
    }

    ghost predicate Valid()
      reads this, environment
    {
      environment.Valid()
    }

    /** `Interpreter::new`: one global frame holding the standard library. */
    constructor (globals: map<string, Value>, host: Host)
      ensures Valid() && Current() == State([globals], []) && this.host == host
      ensures fresh(environment)
    {
      environment := new Environment(globals);
      output := [];
      this.host := host;
    }

    method Interpret(statements: seq<Stmt>, fuel: nat) returns (outcome: Outcome)
      requires Valid()
      modifies this, environment
      ensures Valid()
      ensures RunOut(outcome, Current()) == Semantics.Interpret(statements, old(Current()), fuel, host)
    {
      for i := 0 to |statements|
        invariant Valid()
        invariant Semantics.Interpret(statements, old(Current()), fuel, host)
          == Semantics.Interpret(statements[i..], Current(), fuel, host)
      {
        assert statements[i..][1..] == statements[i + 1..];
        var flow := Execute(statements[i], fuel);
        match flow {
          case Normal =>
          case Abrupt(Return(_)) =>
            return Failed("Return statement outside of function");
          case Abrupt(Error(m)) =>
            return Failed(m);
          case Abrupt(OutOfFuel) =>
            return Diverged;
        }
      }
      outcome := Completed;
    }

    method Execute(s: Stmt, fuel: nat) returns (flow: Flow)
      requires Valid()
      modifies this, environment
      ensures Valid()
      ensures ExecOut(flow, Current()) == Exec(s, old(Current()), fuel, host)
      decreases fuel, StmtSize(s), 0
    {
      match s {
        case Expression(e) =>
          var r := Evaluate(e, fuel);
          flow := if r.Err? then Abrupt(r.error) else Normal;
        case Print(e) =>
          var r := Evaluate(e, fuel);
          if r.Err? {
            flow := Abrupt(r.error);
          } else {
            var text := StringifyValue(r.value, host.printer);
            output := output + [text];
            flow := Normal;
          }
        case Var(name, init) =>
          var r: Result<Value, Signal> := Ok(Value.Nil);
          if init.Some? {
            r := Evaluate(init.value, fuel);
          }
          if r.Err? {
            flow := Abrupt(r.error);
          } else {
            environment.DefineVar(name, r.value);
            flow := Normal;
          }
        case Block(ss) =>
          flow := ExecuteBlock(ss, fuel);
        case If(c, t, els) =>
          var r := Evaluate(c, fuel);
          if r.Err? {
            flow := Abrupt(r.error);
          } else if Truthy(r.value) {
            flow := Execute(t, fuel);
          } else if els.Some? {
            flow := Execute(els.value, fuel);
          } else {
            flow := Normal;
          }
        case While(c, b) =>
          flow := ExecuteWhile(c, b, fuel);
        case Function(name, params, body) =>
          environment.DefineVar(name, Value.Function(name, params, body));
          flow := Normal;
        case Return(v) =>
          var r: Result<Value, Signal> := Ok(Value.Nil);
          if v.Some? {
            r := Evaluate(v.value, fuel);
          }
          flow := if r.Err? then Abrupt(r.error) else Abrupt(Signal.Return(r.value));
      }
    }

    /** A block runs in a fresh innermost frame that is dropped on every exit. */
    method ExecuteBlock(ss: seq<Stmt>, fuel: nat) returns (flow: Flow)
      requires Valid()
      modifies this, environment
      ensures Valid()
      ensures ExecOut(flow, Current()) == Exec(Block(ss), old(Current()), fuel, host)
      decreases fuel, StmtsSize(ss), 2
    {
      environment.Enclose();
      flow := ExecuteStatements(ss, fuel);
      environment.Restore();
    }

    /** The statement loop shared by blocks and calls: statements in order
        until one ends abruptly. */
    method ExecuteStatements(ss: seq<Stmt>, fuel: nat) returns (flow: Flow)
      requires Valid()
      modifies this, environment
      ensures Valid()
      ensures ExecOut(flow, Current()) == ExecSeq(ss, old(Current()), fuel, host)
      decreases fuel, StmtsSize(ss), 1
    {
      flow := Normal;
      var i := 0;
      while i < |ss| && flow.Normal?
        invariant Valid() && i <= |ss|
        invariant flow.Normal? ==> ExecSeq(ss, old(Current()), fuel, host) == ExecSeq(ss[i..], Current(), fuel, host)
        invariant flow.Abrupt? ==> ExecOut(flow, Current()) == ExecSeq(ss, old(Current()), fuel, host)
        decreases |ss| - i
      {
        assert ss[i..][1..] == ss[i + 1..];
        StmtsSizeBound(ss, i);
        flow := Execute(ss[i], fuel);
        i := i + 1;
      }
      if flow.Normal? {
        assert ss[i..] == [];
      }
    }

    /** `while`: the source's `loop`, with one unit of fuel per iteration. */
    method ExecuteWhile(c: Expr, b: Stmt, fuel: nat) returns (flow: Flow)
      requires Valid()
      modifies this, environment
      ensures Valid()
      ensures ExecOut(flow, Current()) == Exec(While(c, b), old(Current()), fuel, host)
      decreases fuel, ExprSize(c) + StmtSize(b), 2
    {
      var f: nat := fuel;
      var running := true;
      flow := Normal;
      while running && f > 0
        invariant Valid() && f <= fuel
        invariant running ==> Exec(While(c, b), old(Current()), fuel, host) == Exec(While(c, b), Current(), f, host)
        invariant !running ==> ExecOut(flow, Current()) == Exec(While(c, b), old(Current()), fuel, host)
        decreases f, running
      {
        running, flow := WhileStep(c, b, f);
        if running {
          f := f - 1;
        }
      }
      if running {
        flow := Abrupt(OutOfFuel);
      }
    }

    /** One pass of the `while` loop: the condition, then the body; the loop
        goes on only when the condition held and the body ended normally. */
    method WhileStep(c: Expr, b: Stmt, fuel: nat) returns (again: bool, flow: Flow)
      requires Valid() && fuel > 0
      modifies this, environment
      ensures Valid()
      ensures again ==> Exec(While(c, b), old(Current()), fuel, host) == Exec(While(c, b), Current(), fuel - 1, host)
      ensures !again ==> ExecOut(flow, Current()) == Exec(While(c, b), old(Current()), fuel, host)
      decreases fuel, ExprSize(c) + StmtSize(b), 1
    {
      again := false;
      var r := Evaluate(c, fuel);
      if r.Err? {
        flow := Abrupt(r.error);
      } else if !Truthy(r.value) {
        flow := Normal;
      } else {
        flow := Execute(b, fuel);
        again := flow.Normal?;
      }
    }

    method Evaluate(e: Expr, fuel: nat) returns (r: Result<Value, Signal>)
      requires Valid()
      modifies this, environment
      ensures Valid()
      ensures EvalOut(r, Current()) == Eval(e, old(Current()), fuel, host)
      decreases fuel, ExprSize(e), 1
    {
      match e {
        case Literal(lit) =>
          r := Ok(LiteralValue(lit));
        case Grouping(inner) =>
          r := Evaluate(inner, fuel);
        case Unary(op, right) =>
          r := Evaluate(right, fuel);
          if r.Ok? {
            r := Raise(EvalUnary(op, r.value));
          }
        case Binary(left, op, right) =>
          var a := Evaluate(left, fuel);
          if a.Err? {
            r := a;
          } else {
            r := Evaluate(right, fuel);
            if r.Ok? {
              r := Raise(EvalBinary(op, a.value, r.value));
            }
          }
        case Variable(name) =>
          match environment.Get(name) {
            case Some(v) => r := Ok(v);
            case None => r := Err(Error(UndefinedVariable(name)));
          }
        case Assign(name, value) =>
          r := Evaluate(value, fuel);
          if r.Ok? {
            AssignNone(environment.frames, name, r.value);
            var ok := environment.AssignVar(name, r.value);
            if !ok {
              r := Err(Error(UndefinedVariable(name)));
            }
          }
        case Logical(left, op, right) =>
          r := Evaluate(left, fuel);
          if r.Err? {
          } else if op != Tokens.Or && op != Tokens.And {
            r := Err(Error("Invalid logical operator."));
          } else if (op == Tokens.Or && !Truthy(r.value)) || (op == Tokens.And && Truthy(r.value)) {
            r := Evaluate(right, fuel);
          }
        case Call(_, _) =>
          r := EvaluateCall(e, fuel);
        case Get(obj, name) =>
          r := Evaluate(obj, fuel);
          if r.Ok? {
            r := Raise(PropertyOf(r.value, name));
          }
        case Method(_, _, _) =>
          r := EvaluateMethod(e, fuel);
        case Array(elements) =>
          var vals := EvaluateList(elements, fuel);
          r := if vals.Err? then Err(vals.error) else Ok(Value.Array(vals.value));
      }
    }

    /** A call: the callee, then the arguments left to right, then the call. */
    method EvaluateCall(e: Expr, fuel: nat) returns (r: Result<Value, Signal>)
      requires Valid() && e.Call?
      modifies this, environment
      ensures Valid()
      ensures EvalOut(r, Current()) == Eval(e, old(Current()), fuel, host)
      decreases fuel, ExprSize(e), 0
    {
      r := Evaluate(e.callee, fuel);
      if r.Ok? {
        var args := EvaluateList(e.arguments, fuel);
        if args.Err? {
          r := Err(args.error);
        } else if !IsCallable(r.value) {
          r := Err(Error("Can only call functions and classes."));
        } else {
          r := CallFunction(r.value, args.value, fuel);
        }
      }
    }

    /** A method call on an Object or Namespace: the receiver, the
        arguments, then the member, which must be callable. */
    method EvaluateMethod(e: Expr, fuel: nat) returns (r: Result<Value, Signal>)
      requires Valid() && e.Method?
      modifies this, environment
      ensures Valid()
      ensures EvalOut(r, Current()) == Eval(e, old(Current()), fuel, host)
      decreases fuel, ExprSize(e), 0
    {
      r := Evaluate(e.obj, fuel);
      if r.Ok? {
        var o := r.value;
        var args := EvaluateList(e.arguments, fuel);
        if args.Err? {
          r := Err(args.error);
        } else if !(o.Object? || o.Namespace?) {
          r := Err(Error("Cannot call methods on non-object value."));
        } else {
          match GetProperty(o, e.name) {
            case None =>
              r := Err(Error("Method '" + e.name + "' not found."));
            case Some(m) =>
              if !IsCallable(m) {
                r := Err(Error("Property '" + e.name + "' is not a method."));
              } else {
                r := CallFunction(m, args.value, fuel);
              }
          }
        }
      }
    }

    /** Argument and element lists, evaluated left to right; the first
        error stops the list. */
    method EvaluateList(es: seq<Expr>, fuel: nat) returns (r: Result<seq<Value>, Signal>)
      requires Valid()
      modifies this, environment
      ensures Valid()
      ensures ListOut(r, Current()) == EvalList(es, [], old(Current()), fuel, host)
      decreases fuel, ExprsSize(es), 2
    {
      var vals: seq<Value> := [];
      for i := 0 to |es|
        invariant Valid()
        invariant EvalList(es, [], old(Current()), fuel, host) == EvalList(es[i..], vals, Current(), fuel, host)
      {
        assert es[i..][1..] == es[i + 1..];
        ExprsSizeBound(es, i);
        var a := Evaluate(es[i], fuel);
        if a.Err? {
          return Err(a.error);
        }
        vals := vals + [a.value];
      }
      r := Ok(vals);
    }

    /** A call: arity check, then a native function is handed to the host,
        and a user function runs in a frame pushed on the caller's stack. */
    method CallFunction(callee: Value, args: seq<Value>, fuel: nat) returns (r: Result<Value, Signal>)
      requires Valid() && IsCallable(callee)
      modifies this, environment
      ensures Valid()
      ensures EvalOut(r, Current()) == CallValue(callee, args, old(Current()), fuel, host)
      decreases fuel, 0, 1
    {
      if callee.NativeFunction? {
        if callee.arity != 0 && |args| != callee.arity {
          r := Err(Error(ArityMismatch(callee.arity, |args|)));
        } else {
          r := Raise(host.callNative(callee.name, args));
        }
      } else if |args| != |callee.params| {
        r := Err(Error(ArityMismatch(|callee.params|, |args|)));
      } else if fuel == 0 {
        r := Err(OutOfFuel);
      } else {
        r := CallUser(callee, args, fuel);
      }
    }

    /** A user function with the right number of arguments: its body runs in
        a new frame holding the parameters, and a `return` ends it. */
    method CallUser(callee: Value, args: seq<Value>, fuel: nat) returns (r: Result<Value, Signal>)
      requires Valid() && callee.Function? && |args| == |callee.params| && fuel > 0
      modifies this, environment
      ensures Valid()
      ensures EvalOut(r, Current()) == CallValue(callee, args, old(Current()), fuel, host)
      decreases fuel, 0, 0
    {
      environment.Enclose();
      BindParameters(callee.params, args);
      var flow := ExecuteStatements(callee.body, fuel - 1);
      environment.Restore();
      match flow {
        case Normal => r := Ok(Value.Nil);
        case Abrupt(Return(v)) => r := Ok(v);
        case Abrupt(sig) => r := Err(sig);
      }
    }

    /** Each parameter defined in the new, empty frame, in order. */
    method BindParameters(params: seq<string>, args: seq<Value>)
      requires Valid() && |params| == |args|
      requires environment.frames[|environment.frames| - 1] == map[]
      modifies environment
      ensures Valid()
      ensures environment.frames == old(environment.frames[..|environment.frames| - 1]) + [Bind(params, args)]
    {
      ghost var base := environment.frames[..|environment.frames| - 1];
      for i := 0 to |params|
        invariant Valid()
        invariant environment.frames == base + [Bind(params[..i], args[..i])]
      {
        assert params[..i + 1][..i] == params[..i] && args[..i + 1][..i] == args[..i];
        environment.DefineVar(params[i], args[i]);
      }
      assert params[..|params|] == params && args[..|args|] == args;
    }
  }
}
