/** What the evaluator promises, stated over the functions of `Semantics`. */
module SemanticsFacts {
  import opened Wrappers
  import opened Ast
  import opened Values
  import opened Env
  import opened Semantics
  import Tokens

  // ---- Operators ----

  /** `+` adds two numbers or concatenates two strings; any other pair of
      operands is an error. */
  lemma PlusOperands(l: Value, r: Value)
    ensures EvalBinary(Tokens.Plus, l, r).Ok? <==> (l.Number? && r.Number?) || (l.String? && r.String?)
    ensures l.Number? && r.Number? ==> EvalBinary(Tokens.Plus, l, r) == Ok(Value.Number(l.n + r.n))
    ensures l.String? && r.String? ==> EvalBinary(Tokens.Plus, l, r) == Ok(Value.String(l.s + r.s))
    ensures EvalBinary(Tokens.Plus, l, r).Err? ==>
      EvalBinary(Tokens.Plus, l, r).error == "Operands must be two numbers or two strings."
  {
  }

  /** `- * > >= < <=` are defined exactly on two numbers; `/` in addition
      needs a nonzero divisor. */
  lemma ArithmeticOperands(op: Tokens.TokenType, l: Value, r: Value)
    requires op in {Tokens.Minus, Tokens.Star, Tokens.Greater, Tokens.GreaterEqual, Tokens.Less, Tokens.LessEqual}
    ensures EvalBinary(op, l, r).Ok? <==> l.Number? && r.Number?
    ensures EvalBinary(op, l, r).Err? ==> EvalBinary(op, l, r).error == "Operands must be numbers."
    ensures EvalBinary(Tokens.Slash, l, r).Ok? <==> l.Number? && r.Number? && r.n != 0.0
    ensures l.Number? && r.Number? && r.n == 0.0 ==> EvalBinary(Tokens.Slash, l, r) == Err("Division by zero.")
  {
  }

  /** `==` and `!=` never fail, and `!=` is the negation of `==`. */
  lemma EqualityTotal(l: Value, r: Value)
    ensures EvalBinary(Tokens.EqualEqual, l, r) == Ok(Value.Boolean(ValuesEqual(l, r)))
    ensures EvalBinary(Tokens.BangEqual, l, r) == Ok(Value.Boolean(!ValuesEqual(l, r)))
    ensures EvalBinary(Tokens.EqualEqual, l, l) == Ok(Value.Boolean(true))
  {
    ValuesEqualReflexive(l);
  }

  /** `or` yields its left value, without evaluating the right operand, when
      that value is truthy; `and` does the same when it is falsy. Otherwise
      the result is the right operand's, evaluated after the left. */
  lemma ShortCircuit(left: Expr, op: Tokens.TokenType, right: Expr, st: State, fuel: nat, host: Host)
    requires |st.frames| >= 1 && (op == Tokens.Or || op == Tokens.And)
    requires Eval(left, st, fuel, host).result.Ok?
    ensures var a := Eval(left, st, fuel, host);
      var stops := if op == Tokens.Or then Truthy(a.result.value) else !Truthy(a.result.value);
      Eval(Logical(left, op, right), st, fuel, host)
        == if stops then a else Eval(right, a.st, fuel, host)
  {
  }

  // ---- Variables ----

  /** Assigning a name no frame defines evaluates the right-hand side, then
      fails with "Undefined variable" and changes no frame. */
  lemma AssignUndefined(name: string, value: Expr, st: State, fuel: nat, host: Host)
    requires |st.frames| >= 1
    requires Eval(value, st, fuel, host).result.Ok?
    requires !Bound(Eval(value, st, fuel, host).st.frames, name)
    ensures Eval(Assign(name, value), st, fuel, host)
      == EvalOut(Err(Error("Undefined variable '" + name + "'.")), Eval(value, st, fuel, host).st)
  {
    AssignNone(Eval(value, st, fuel, host).st.frames, name, Eval(value, st, fuel, host).result.value);
  }

  /** A block's own definitions vanish when it ends, normally or not: a name
      no frame had before the block is unbound after it, and every frame
      keeps exactly the names it had. Values assigned to outer names stay. */
  lemma {:induction false} BlockScoping(ss: seq<Stmt>, st: State, fuel: nat, host: Host, name: string)
    requires |st.frames| >= 1
    ensures SameShape(st.frames, Exec(Block(ss), st, fuel, host).st.frames)
    ensures Lookup(st.frames, name).None? ==> Lookup(Exec(Block(ss), st, fuel, host).st.frames, name).None?
  {
    var after := Exec(Block(ss), st, fuel, host).st.frames;
    var inner := ExecSeq(ss, State(st.frames + [map[]], st.out), fuel, host).st.frames;
    assert after == inner[..|st.frames|];
    assert SameShape(st.frames, after) by {
      forall i | 0 <= i < |st.frames|
        ensures st.frames[i].Keys == after[i].Keys
      {
        assert (st.frames + [map[]])[i] == st.frames[i];
      }
    }
    if Lookup(st.frames, name).None? {
      LookupNone(st.frames, name);
      LookupNone(after, name);
    }
  }

  // ---- Control signals ----

  /** A sequence of statements runs its first part, then, unless that ended
      abruptly, its second part. */
  lemma {:induction false} ExecSeqAppend(s1: seq<Stmt>, s2: seq<Stmt>, st: State, fuel: nat, host: Host)
    requires |st.frames| >= 1
    ensures var r1 := ExecSeq(s1, st, fuel, host);
      ExecSeq(s1 + s2, st, fuel, host)
        == if r1.flow.Abrupt? then r1 else ExecSeq(s2, r1.st, fuel, host)
    decreases |s1|
  {
    if s1 != [] {
      assert (s1 + s2)[0] == s1[0];
      assert (s1 + s2)[1..] == s1[1..] + s2;
      var r := Exec(s1[0], st, fuel, host);
      if r.flow.Normal? {
        ExecSeqAppend(s1[1..], s2, r.st, fuel, host);
      }
    } else {
      assert s1 + s2 == s2;
    }
  }

  /** A `return` reached inside a block, an `if` or a loop body leaves it
      with the same signal; the statements after it do not run. */
  lemma ReturnPropagates(v: Value, e: Expr, st: State, fuel: nat, host: Host,
                         before: seq<Stmt>, after: seq<Stmt>, c: Expr, els: Option<Stmt>)
    requires |st.frames| >= 1
    requires ExecSeq(before, State(st.frames + [map[]], st.out), fuel, host).flow == Abrupt(Signal.Return(v))
    ensures Exec(Block(before + after), st, fuel, host).flow == Abrupt(Signal.Return(v))
    ensures var a := Eval(c, st, fuel, host);
      a.result.Ok? && Truthy(a.result.value) && Exec(Block(before), a.st, fuel, host).flow.Abrupt? ==>
        Exec(If(c, Block(before), els), st, fuel, host) == Exec(Block(before), a.st, fuel, host)
  {
    ExecSeqAppend(before, after, State(st.frames + [map[]], st.out), fuel, host);
  }

  /** A loop whose body ends abruptly ends the loop with that same signal. */
  lemma LoopPropagates(c: Expr, b: Stmt, st: State, fuel: nat, host: Host)
    requires |st.frames| >= 1 && fuel > 0
    requires Eval(c, st, fuel, host).result.Ok? && Truthy(Eval(c, st, fuel, host).result.value)
    requires Exec(b, Eval(c, st, fuel, host).st, fuel, host).flow.Abrupt?
    ensures Exec(While(c, b), st, fuel, host) == Exec(b, Eval(c, st, fuel, host).st, fuel, host)
  {
  }

  /** Calls are dynamically scoped: `CallValue` runs a user function's body
      on the caller's frames with one frame of parameters on top, so a name
      that is not a parameter means whatever the caller binds it to, and a
      parameter shadows the caller's binding of the same name. */
  lemma DynamicScope(frames: Frames, params: seq<string>, args: seq<Value>, x: string)
    requires |params| == |args|
    ensures x in Bind(params, args) <==> x in params
    ensures x !in params ==> Lookup(frames + [Bind(params, args)], x) == Lookup(frames, x)
    ensures x in params ==> Lookup(frames + [Bind(params, args)], x) == Some(Bind(params, args)[x])
  {
    BindParams(params, args);
    var pushed := frames + [Bind(params, args)];
    assert pushed[..|pushed| - 1] == frames;
  }

  /** An instance over a whole call: a function whose body is `return x`
      returns the caller's `x`, with the caller's frames as they were. */
  lemma CallerVariable(f: string, x: string, v: Value, st: State, fuel: nat, host: Host)
    requires |st.frames| >= 1 && fuel > 0
    requires Lookup(st.frames, x) == Some(v)
    ensures CallValue(Value.Function(f, [], [Stmt.Return(Some(Variable(x)))]), [], st, fuel, host)
      == EvalOut(Ok(v), st)
  {
    var pushed := st.frames + [map[]];
    assert Bind([], []) == map[];
    DynamicScope(st.frames, [], [], x);
    var inner := State(pushed, st.out);
    assert Eval(Variable(x), inner, fuel - 1, host) == EvalOut(Ok(v), inner);
    assert Exec(Stmt.Return(Some(Variable(x))), inner, fuel - 1, host)
      == ExecOut(Abrupt(Signal.Return(v)), inner);
    assert pushed[..|st.frames|] == st.frames;
  }

  /** The call frame binds every parameter; with distinct parameter names
      each is bound to the argument in its position. */
  lemma {:induction false} BindParams(params: seq<string>, args: seq<Value>)
    requires |params| == |args|
    ensures Bind(params, args).Keys == set p | p in params
    ensures (forall i, j :: 0 <= i < j < |params| ==> params[i] != params[j]) ==>
      forall i :: 0 <= i < |params| ==> Bind(params, args)[params[i]] == args[i]
  {
    if params != [] {
      var n := |params|;
      BindParams(params[..n - 1], args[..n - 1]);
      assert forall p :: p in params <==> p in params[..n - 1] || p == params[n - 1];
      if forall i, j :: 0 <= i < j < n ==> params[i] != params[j] {
        forall i | 0 <= i < n
          ensures Bind(params, args)[params[i]] == args[i]
        {
          if i < n - 1 {
            assert params[..n - 1][i] == params[i];
          }
        }
      }
    }
  }

  /** Whatever the top-level statements do, `interpret` runs them as one
      sequence; a `return` at top level, like an error, stops the run and
      the statements after it are skipped. */
  lemma {:induction false} InterpretRunsSequence(stmts: seq<Stmt>, st: State, fuel: nat, host: Host)
    requires |st.frames| >= 1
    ensures var r := ExecSeq(stmts, st, fuel, host);
      && Interpret(stmts, st, fuel, host).st == r.st
      && Interpret(stmts, st, fuel, host).outcome ==
        match r.flow
        case Normal => Completed
        case Abrupt(Return(_)) => Failed("Return statement outside of function")
        case Abrupt(Error(m)) => Failed(m)
        case Abrupt(OutOfFuel) => Diverged
  {
    if stmts != [] {
      var x := Exec(stmts[0], st, fuel, host);
      if x.flow.Normal? {
        InterpretRunsSequence(stmts[1..], x.st, fuel, host);
      }
    }
  }

  /** A top-level `return` ends the run with an error whatever follows it. */
  lemma TopLevelReturn(v: Option<Expr>, rest: seq<Stmt>, st: State, fuel: nat, host: Host)
    requires |st.frames| >= 1
    requires v.Some? ==> Eval(v.value, st, fuel, host).result.Ok?
    ensures Interpret([Stmt.Return(v)] + rest, st, fuel, host).outcome == Failed("Return statement outside of function")
  {
    assert ([Stmt.Return(v)] + rest)[0] == Stmt.Return(v);
  }
}
