/** What the parser promises, stated over the functions of `Grammar`. */
module GrammarFacts {
  import opened Wrappers
  import opened Tokens
  import opened Ast
  import opened Grammar

  // ---- Cursor ----

  /** `check` is false at EOF and matches an Identifier whatever its name. */
  lemma CheckFacts(toks: seq<Token>, pos: nat, name: string, other: string)
    requires WellFormed(toks) && pos < |toks|
    ensures !Check(toks, |toks| - 1, Semicolon) && !Check(toks, |toks| - 1, Identifier(name))
    ensures toks[pos].kind == Identifier(other) ==> Check(toks, pos, Identifier(name))
  {
  }

  // ---- Precedence and associativity ----

  /** The binary level an operator belongs to; 4 for a non-binary token. */
  function LevelOf(op: TokenType): int
  {
    if op in Operators(Factor) then Factor
    else if op in Operators(Term) then Term
    else if op in Operators(Comparison) then Comparison
    else if op in Operators(Equality) then Equality
    else 4
  }

  /** `e` is a tree the binary levels up to `level` build: a Binary node's
      operator is of at most that level, its LEFT operand may use the same
      level again, its RIGHT operand only tighter ones; below the binary
      levels are prefix operators and calls over a primary. */
  ghost predicate Nested(e: Expr, level: int)
  {
    match e
    case Binary(l, op, r) => 0 <= LevelOf(op) <= level && Nested(l, LevelOf(op)) && Nested(r, LevelOf(op) - 1)
    case Unary(_, x) => Nested(x, -1)
    case Call(c, _) => Nested(c, -1)
    case Literal(_) => true
    case Variable(_) => true
    case Grouping(_) => true
    case _ => false
  }

  lemma NestedMonotone(e: Expr, k: int, k': int)
    requires Nested(e, k) && k <= k'
    ensures Nested(e, k')
  {
  }

  /** A primary is a literal, a variable or a parenthesised group. */
  lemma PrimaryShape(toks: seq<Token>, pos: nat)
    requires WellFormed(toks) && pos < |toks|
    ensures Primary(toks, pos).result.Ok? ==> Nested(Primary(toks, pos).result.value, -1)
  {
    if toks[pos].kind == LeftParen {
      var g := Grouped(toks, SkipNewlines(toks, pos + 1));
      assert Primary(toks, pos) == g;
    }
  }

  /** Prefix operators nest: `!` and `-` apply to another unary expression. */
  lemma {:induction false} UnaryShape(toks: seq<Token>, pos: nat)
    requires WellFormed(toks) && pos < |toks|
    ensures Grammar.Unary(toks, pos).result.Ok? ==> Nested(Grammar.Unary(toks, pos).result.value, -1)
    decreases |toks| - pos
  {
    var p := SkipNewlines(toks, pos);
    if toks[p].kind in PrefixOperators {
      UnaryShape(toks, p + 1);
      assert Grammar.Unary(toks, pos) == PrefixOperand(toks, toks[p].kind, p + 1);
    } else {
      assert Grammar.Unary(toks, pos) == CallExpr(toks, p);
      var e := Primary(toks, p);
      if e.result.Ok? {
        PrimaryShape(toks, p);
        CallTailShape(toks, e.result.value, e.pos);
      }
    }
  }

  /** Repeated calls `f()()` nest to the left: each call's callee is the
      call before it. */
  lemma {:induction false} CallTailShape(toks: seq<Token>, callee: Expr, pos: nat)
    requires WellFormed(toks) && pos < |toks| && Nested(callee, -1)
    ensures CallTail(toks, callee, pos).result.Ok? ==> Nested(CallTail(toks, callee, pos).result.value, -1)
    decreases |toks| - pos
  {
    if Check(toks, pos, LeftParen) {
      var c := FinishCall(toks, callee, SkipNewlines(toks, pos + 1));
      if c.result.Ok? {
        CallTailShape(toks, c.result.value, c.pos);
      }
    }
  }

  /** Every tree a binary level builds is `Nested` at that level: operators
      of one level group to the left, and tighter levels bind first. */
  lemma {:induction false} BinaryLevelShape(toks: seq<Token>, level: nat, pos: nat)
    requires WellFormed(toks) && pos < |toks| && level <= Equality
    ensures BinaryLevel(toks, level, pos).result.Ok? ==> Nested(BinaryLevel(toks, level, pos).result.value, level)
    decreases |toks| - pos, 22 + 2 * level
  {
    var left := Operand(toks, level, pos);
    if left.result.Ok? {
      OperandShape(toks, level, pos);
      NestedMonotone(left.result.value, level - 1, level);
      BinaryTailShape(toks, level, left.result.value, left.pos);
    }
  }

  lemma {:induction false} OperandShape(toks: seq<Token>, level: nat, pos: nat)
    requires WellFormed(toks) && pos < |toks| && level <= Equality
    ensures Operand(toks, level, pos).result.Ok? ==> Nested(Operand(toks, level, pos).result.value, level - 1)
    decreases |toks| - pos, 21 + 2 * level
  {
    if level == Factor {
      UnaryShape(toks, pos);
    } else {
      BinaryLevelShape(toks, level - 1, pos);
    }
  }

  lemma {:induction false} BinaryTailShape(toks: seq<Token>, level: nat, left: Expr, pos: nat)
    requires WellFormed(toks) && pos < |toks| && level <= Equality && Nested(left, level)
    ensures BinaryTail(toks, level, left, pos).result.Ok? ==> Nested(BinaryTail(toks, level, left, pos).result.value, level)
    decreases |toks| - pos, 22 + 2 * level
  {
    if toks[pos].kind in Operators(level) {
      var right := Operand(toks, level, pos + 1);
      if right.result.Ok? {
        OperandShape(toks, level, pos + 1);
        assert LevelOf(toks[pos].kind) == level;
        BinaryTailShape(toks, level, Binary(left, toks[pos].kind, right.result.value), right.pos);
      }
    }
  }

  /** What `Nested` rules out: `a - b - c` is never `a - (b - c)`, and
      `a * b + c` is never `a * (b + c)`, unless the source has parentheses. */
  lemma NoRightNesting(x: Expr, y: Expr, z: Expr, op1: TokenType, op2: TokenType, level: int)
    requires 0 <= LevelOf(op2) <= Equality && LevelOf(op1) <= LevelOf(op2)
    ensures !Nested(Binary(x, op1, Binary(y, op2, z)), level)
    ensures Nested(Binary(Binary(x, op2, y), op2, z), level) <==>
      LevelOf(op2) <= level && Nested(x, LevelOf(op2)) && Nested(y, LevelOf(op2) - 1) && Nested(z, LevelOf(op2) - 1)
  {
  }

  // ---- Assignment ----

  /** An assignment chain: targets on the left, one value at the right end. */
  ghost predicate AssignChain(e: Expr)
  {
    if e.Assign? then AssignChain(e.value) else Nested(e, Equality)
  }

  /** `a = b = c` is `a = (b = c)`: assignment is right-associative, and
      anything else `assignment` yields is an equality-level tree. */
  lemma {:induction false} AssignmentShape(toks: seq<Token>, pos: nat)
    requires WellFormed(toks) && pos < |toks|
    ensures Assignment(toks, pos).result.Ok? ==> AssignChain(Assignment(toks, pos).result.value)
    decreases |toks| - pos
  {
    var start := SkipNewlines(toks, pos);
    var e := BinaryLevel(toks, Equality, start);
    BinaryLevelShape(toks, Equality, start);
    if e.result.Ok? {
      var p := SkipNewlines(toks, e.pos);
      if Check(toks, p, Equal) {
        var q := SkipNewlines(toks, p + 1);
        assert Assignment(toks, pos) == AssignValue(toks, e.result.value, q);
        AssignmentShape(toks, q);
      }
    }
  }

  /** An `Assign` node is built only when the left side parsed as a plain
      variable; any other left side followed by `=` is "Invalid assignment
      target." once the right side parses. */
  lemma AssignmentTarget(toks: seq<Token>, pos: nat)
    requires WellFormed(toks) && pos < |toks|
    ensures var e := BinaryLevel(toks, Equality, SkipNewlines(toks, pos));
      var r := Assignment(toks, pos);
      && (r.result.Ok? && r.result.value.Assign? ==> e.result == Ok(Variable(r.result.value.name)))
      && (e.result.Ok? && !e.result.value.Variable? && Check(toks, SkipNewlines(toks, e.pos), Equal)
          && Assignment(toks, SkipNewlines(toks, SkipNewlines(toks, e.pos) + 1)).result.Ok?
          ==> r.result == Err(InvalidAssignmentTarget))
  {
    var e := BinaryLevel(toks, Equality, SkipNewlines(toks, pos));
    BinaryLevelShape(toks, Equality, SkipNewlines(toks, pos));
    if e.result.Ok? {
      var p := SkipNewlines(toks, e.pos);
      if Check(toks, p, Equal) {
        var q := SkipNewlines(toks, p + 1);
        assert Assignment(toks, pos) == AssignValue(toks, e.result.value, q);
      }
    }
  }

  // ---- Declarations ----

  /** At most 255 parameters: the parameter loop fails as soon as a 256th
      would be read, and a declaration that parses has at most 255. */
  lemma {:induction false} ParameterCap(toks: seq<Token>, pos: nat, params: seq<string>)
    requires WellFormed(toks) && pos < |toks|
    ensures |params| >= MaxParameters ==>
      Parameters(toks, pos, params) == Parsed(Err(TooManyParameters), pos)
    ensures var r := Parameters(toks, pos, params);
      r.result.Ok? ==> |params| < |r.result.value| <= MaxParameters && r.result.value[..|params|] == params
    decreases |toks| - pos
  {
    if |params| < MaxParameters && Check(toks, pos, Identifier("")) {
      var more := params + [toks[pos].lexeme];
      if Check(toks, pos + 1, Comma) {
        ParameterCap(toks, pos + 2, more);
        var r := Parameters(toks, pos + 2, more);
        if r.result.Ok? {
          assert r.result.value[..|params|] == r.result.value[..|more|][..|params|];
        }
      } else {
        assert more[..|params|] == params;
      }
    }
  }

  /** A function declaration that parses has at most 255 parameters. */
  lemma FunctionParameterCap(toks: seq<Token>, pos: nat)
    requires WellFormed(toks) && pos < |toks|
    ensures var r := FunctionDeclaration(toks, pos);
      r.result.Ok? ==> r.result.value.Function? && |r.result.value.params| <= MaxParameters
  {
    if Check(toks, pos, Identifier("")) && Check(toks, pos + 1, LeftParen) {
      var params := ParameterList(toks, pos + 2);
      if !Check(toks, pos + 2, RightParen) {
        ParameterCap(toks, pos + 2, []);
      }
      if params.result.Ok? {
        assert FunctionDeclaration(toks, pos) == FunctionBody(toks, toks[pos].lexeme, params.result.value, params.pos);
      }
    }
  }

  // ---- Programs ----

  /** `acc` in front of a parse result, errors passed through. */
  function Prepend(acc: seq<Stmt>, r: Parsed<seq<Stmt>>): Parsed<seq<Stmt>>
  {
    if r.result.Ok? then Parsed(Ok(acc + r.result.value), r.pos) else r
  }

  lemma PrependTwice(acc: seq<Stmt>, x: Stmt, r: Parsed<seq<Stmt>>)
    ensures Prepend(acc, Prepend([x], r)) == Prepend(acc + [x], r)
  {
    if r.result.Ok? {
      assert acc + ([x] + r.result.value) == acc + [x] + r.result.value;
    }
  }

  /** `parse` collects declarations in source order: the statements parsed
      so far stay in front of those that follow, and an error discards
      them all. */
  lemma {:induction false} ParseLoopOrder(toks: seq<Token>, pos: nat, acc: seq<Stmt>)
    requires WellFormed(toks) && pos < |toks|
    ensures ParseLoop(toks, pos, acc) == Prepend(acc, ParseLoop(toks, pos, []))
    decreases |toks| - pos
  {
    if AtEnd(toks, pos) {
      assert acc + [] == acc;
    } else {
      var d := Declaration(toks, pos);
      if d.result.Ok? {
        var next := SkipNewlines(toks, d.pos);
        var x := d.result.value;
        ParseLoopOrder(toks, next, acc + [x]);
        ParseLoopOrder(toks, next, [x]);
        assert [] + [x] == [x];
        PrependTwice(acc, x, ParseLoop(toks, next, []));
      }
    }
  }
}
