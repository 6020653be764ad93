/** The parser object: a token sequence and a cursor `current` that its
    methods advance. Each method is proved to return what the function of
    `Grammar` with the same name returns, and to leave the cursor where
    that function says. */
module Parsing {
  import opened Wrappers
  import opened Tokens
  import opened Ast
  import opened Grammar

  /** `match_token` over kinds that are neither an Identifier nor EOF is a
      test of the current token's kind. */
  lemma MatchPlain(toks: seq<Token>, pos: nat, kinds: seq<TokenType>)
    requires pos < |toks|
    requires forall i :: 0 <= i < |kinds| ==> !kinds[i].Identifier? && kinds[i] != EOF
    ensures (exists i :: 0 <= i < |kinds| && Check(toks, pos, kinds[i])) <==> toks[pos].kind in kinds
  {
    if toks[pos].kind in kinds {
      var i :| 0 <= i < |kinds| && kinds[i] == toks[pos].kind;
      assert Check(toks, pos, kinds[i]);
    }
  }

  class Parser {
    const tokens: seq<Token>
    var current: nat

    ghost predicate Valid()
      reads this
    {
      WellFormed(tokens) && current < |tokens|
    }

    constructor (tokens: seq<Token>)
      requires WellFormed(tokens)
      ensures Valid() && this.tokens == tokens && current == 0
    {
      this.tokens := tokens;
      current := 0;
    }

    // ---- Cursor primitives ----

    predicate IsAtEnd()
      requires Valid()
      reads this
    {
      tokens[current].kind == EOF
    }

    predicate CheckToken(kind: TokenType)
      requires Valid()
      reads this
    {
      Check(tokens, current, kind)
    }

    /** `advance`: one step forward, except at EOF. */
    method Advance()
      requires Valid()
      modifies this
      ensures Valid()
      ensures current == if AtEnd(tokens, old(current)) then old(current) else old(current) + 1
    {
      if !IsAtEnd() {
        current := current + 1;
      }
    }

    /** `match_token`: consume the current token if it checks as one of `types`. */
    method MatchToken(types: seq<TokenType>) returns (matched: bool)
      requires Valid()
      modifies this
      ensures Valid()
      ensures matched <==> exists i :: 0 <= i < |types| && Check(tokens, old(current), types[i])
      ensures current == if matched then old(current) + 1 else old(current)
    {
      for i := 0 to |types|
        invariant current == old(current)
        invariant forall j :: 0 <= j < i ==> !Check(tokens, current, types[j])
      {
        if CheckToken(types[i]) {
          Advance();
          return true;
        }
      }
      return false;
    }

    /** `match_token` with a single kind. */
    method MatchOne(kind: TokenType) returns (matched: bool)
      requires Valid()
      modifies this
      ensures Valid()
      ensures matched == Check(tokens, old(current), kind)
      ensures current == if matched then old(current) + 1 else old(current)
    {
      ghost var start := current;
      assert [kind][0] == kind;
      matched := MatchToken([kind]);
      if Check(tokens, start, kind) {
        assert Check(tokens, start, [kind][0]);
      }
    }

    /** `consume`: the expected token, or `message` with the cursor unmoved. */
    method Consume(kind: TokenType, message: ParseError) returns (r: Result<Token, ParseError>)
      requires Valid()
      modifies this
      ensures Valid()
      ensures r.Ok? <==> Check(tokens, old(current), kind)
      ensures r.Ok? ==> r.value == tokens[old(current)] && current == old(current) + 1
      ensures r.Err? ==> r.error == message && current == old(current)
    {
      if CheckToken(kind) {
        var t := tokens[current];
        Advance();
        return Ok(t);
      }
      return Err(message);
    }

    method SkipNewlines()
      requires Valid()
      modifies this
      ensures Valid() && current == Grammar.SkipNewlines(tokens, old(current))
    {
      while CheckToken(Newline)
        invariant Valid()
        invariant Grammar.SkipNewlines(tokens, old(current)) == Grammar.SkipNewlines(tokens, current)
        decreases |tokens| - current
      {
        Advance();
      }
    }

    /** The statement terminator check, `;` first, then Newline. */
    method MatchTerminator() returns (matched: bool)
      requires Valid()
      modifies this
      ensures Valid()
      ensures matched <==> Terminator(tokens, old(current)).Some?
      ensures current == if matched then old(current) + 1 else old(current)
    {
      matched := MatchOne(Semicolon);
      if !matched {
        matched := MatchOne(Newline);
      }
    }

    // ---- Declarations and statements ----
    // Where the source's method goes on after a nested parse returns, the
    // rest of it is a method of its own, named after the matching function
    // of `Grammar` (for instance `IfBranches` and `ElseBranch` finish
    // `if_statement`).

    /** `parse`, from wherever the cursor stands. */
    method Parse() returns (r: Result<seq<Stmt>, ParseError>)
      requires Valid()
      modifies this
      ensures Valid()
      ensures Parsed(r, current) == ParseLoop(tokens, Grammar.SkipNewlines(tokens, old(current)), [])
    {
      var statements: seq<Stmt> := [];
      SkipNewlines();
      ghost var all := ParseLoop(tokens, current, []);
      while !IsAtEnd()
        invariant Valid()
        invariant all == ParseLoop(tokens, current, statements)
        decreases |tokens| - current
      {
        ghost var d0 := Grammar.Declaration(tokens, current);
        var d := Declaration();
        assert Parsed(d, current) == d0;
        if d.Err? {
          return Err(d.error);
        }
        statements := statements + [d.value];
        SkipNewlines();
      }
      r := Ok(statements);
    }

    method Declaration() returns (r: Result<Stmt, ParseError>)
      requires Valid()
      modifies this
      ensures Valid()
      ensures Parsed(r, current) == Grammar.Declaration(tokens, old(current))
      decreases |tokens| - current, 90
    {
      ghost var d0 := Grammar.Declaration(tokens, current);
      SkipNewlines();
      ghost var p := current;
      if CheckToken(TokenType.Var) {
        Advance();
        ghost var v0 := Grammar.VarDeclaration(tokens, current);
        assert d0 == v0;
        r := VarDeclaration();
      } else if CheckToken(Fun) {
        Advance();
        ghost var f0 := Grammar.FunctionDeclaration(tokens, current);
        assert d0 == f0;
        r := FunctionDeclaration();
      } else {
        ghost var s0 := Grammar.Statement(tokens, current);
        assert d0 == s0;
        r := Statement();
      }
    }

    method VarDeclaration() returns (r: Result<Stmt, ParseError>)
      requires Valid()
      modifies this
      ensures Valid()
      ensures Parsed(r, current) == Grammar.VarDeclaration(tokens, old(current))
      decreases |tokens| - current, 85
    {
      if !CheckToken(Identifier("")) {
        r := Err(ExpectVariableName);
      } else {
        var name := tokens[current];
        Advance();
        SkipNewlines();
        if CheckToken(Equal) {
          Advance();
          SkipNewlines();
          r := VarInitializer(name.lexeme);
        } else {
          SkipNewlines();
          r := VarEnd(name.lexeme, None);
        }
      }
    }

    method VarInitializer(name: string) returns (r: Result<Stmt, ParseError>)
      requires Valid()
      modifies this
      ensures Valid()
      ensures Parsed(r, current) == Grammar.VarInitializer(tokens, name, old(current))
      decreases |tokens| - current, 84
    {
      ghost var e0 := Grammar.Expression(tokens, current);
      var e := Expression();
      assert Parsed(e, current) == e0;
      if e.Err? {
        r := Err(e.error);
      } else {
        SkipNewlines();
        r := VarEnd(name, Some(e.value));
      }
    }

    method VarEnd(name: string, initializer: Option<Expr>) returns (r: Result<Stmt, ParseError>)
      requires Valid()
      modifies this
      ensures Valid()
      ensures Parsed(r, current) == Grammar.VarEnd(tokens, name, initializer, old(current))
    {
      var ended := MatchTerminator();
      if ended {
        r := Ok(Stmt.Var(name, initializer));
      } else {
        r := Err(ExpectVarTerminator);
      }
    }

    /** `function("function")`, up to the parameter list. */
    method FunctionDeclaration() returns (r: Result<Stmt, ParseError>)
      requires Valid()
      modifies this
      ensures Valid()
      ensures Parsed(r, current) == Grammar.FunctionDeclaration(tokens, old(current))
      decreases |tokens| - current, 97
    {
      if !CheckToken(Identifier("")) {
        r := Err(ExpectFunctionName);
      } else {
        var name := tokens[current];
        Advance();
        if !CheckToken(LeftParen) {
          r := Err(ExpectParenAfterFunctionName);
        } else {
          Advance();
          var parameters := ParameterList();
          if parameters.Err? {
            r := Err(parameters.error);
          } else {
            r := FunctionBody(name.lexeme, parameters.value);
          }
        }
      }
    }

    /** The parameter loop of `function`, called just after `(`: nothing
        when `)` follows, otherwise comma-separated names, at most
        `MaxParameters` of them. */
    method ParameterList() returns (r: Result<seq<string>, ParseError>)
      requires Valid()
      modifies this
      ensures Valid()
      ensures Parsed(r, current) == Grammar.ParameterList(tokens, old(current))
    {
      var parameters: seq<string> := [];
      if !CheckToken(RightParen) {
        ghost var all := Parameters(tokens, current, []);
        while true
          invariant Valid()
          invariant all == Parameters(tokens, current, parameters)
          decreases |tokens| - current
        {
          if |parameters| >= MaxParameters {
            return Err(TooManyParameters);
          }
          if !CheckToken(Identifier("")) {
            return Err(ExpectParameterName);
          }
          parameters := parameters + [tokens[current].lexeme];
          Advance();
          if !CheckToken(Comma) {
            break;
          }
          Advance();
        }
      }
      r := Ok(parameters);
    }

    method FunctionBody(name: string, parameters: seq<string>) returns (r: Result<Stmt, ParseError>)
      requires Valid()
      modifies this
      ensures Valid()
      ensures Parsed(r, current) == Grammar.FunctionBody(tokens, name, parameters, old(current))
      decreases |tokens| - current, 97
    {
      if !CheckToken(RightParen) {
        r := Err(ExpectParenAfterParameters);
      } else {
        Advance();
        if !CheckToken(LeftBrace) {
          r := Err(ExpectBraceBeforeBody);
        } else {
          Advance();
          ghost var b0 := Grammar.Block(tokens, current);
          var body := Block();
          assert Parsed(body, current) == b0;
          if body.Err? {
            r := Err(body.error);
          } else {
            r := Ok(Stmt.Function(name, parameters, body.value));
          }
        }
      }
    }

    method Statement() returns (r: Result<Stmt, ParseError>)
      requires Valid()
      modifies this
      ensures Valid()
      ensures Parsed(r, current) == Grammar.Statement(tokens, old(current))
      decreases |tokens| - current, 80
    {
      SkipNewlines();
      if CheckToken(TokenType.Print) {
        Advance();
        r := PrintStatement();
      } else if CheckToken(TokenType.If) {
        Advance();
        r := IfStatement();
      } else if CheckToken(TokenType.While) {
        Advance();
        r := WhileStatement();
      } else if CheckToken(TokenType.Return) {
        Advance();
        r := ReturnStatement();
      } else if CheckToken(LeftBrace) {
        Advance();
        r := BlockStatement();
      } else {
        r := ExpressionStatement();
      }
    }

    method BlockStatement() returns (r: Result<Stmt, ParseError>)
      requires Valid()
      modifies this
      ensures Valid()
      ensures Parsed(r, current) == Grammar.BlockStatement(tokens, old(current))
      decreases |tokens| - current, 98
    {
      ghost var b0 := Grammar.Block(tokens, current);
      var b := Block();
      assert Parsed(b, current) == b0;
      if b.Err? {
        r := Err(b.error);
      } else {
        r := Ok(Stmt.Block(b.value));
      }
    }

    method PrintStatement() returns (r: Result<Stmt, ParseError>)
      requires Valid()
      modifies this
      ensures Valid()
      ensures Parsed(r, current) == Grammar.PrintStatement(tokens, old(current))
      decreases |tokens| - current, 77
    {
      ghost var e0 := Grammar.Expression(tokens, current);
      var value := Expression();
      assert Parsed(value, current) == e0;
      if value.Err? {
        r := Err(value.error);
      } else {
        var ended := MatchTerminator();
        if ended {
          r := Ok(Stmt.Print(value.value));
        } else {
          r := Err(ExpectPrintTerminator);
        }
      }
    }

    method IfStatement() returns (r: Result<Stmt, ParseError>)
      requires Valid()
      modifies this
      ensures Valid()
      ensures Parsed(r, current) == Grammar.IfStatement(tokens, old(current))
      decreases |tokens| - current, 82
    {
      if !CheckToken(LeftParen) {
        r := Err(ExpectParenAfterIf);
      } else {
        Advance();
        ghost var c0 := Grammar.Expression(tokens, current);
        var condition := Expression();
        assert Parsed(condition, current) == c0;
        if condition.Err? {
          r := Err(condition.error);
        } else {
          if !CheckToken(RightParen) {
            r := Err(ExpectParenAfterIfCondition);
          } else {
            Advance();
            r := IfBranches(condition.value);
          }
        }
      }
    }

    method IfBranches(condition: Expr) returns (r: Result<Stmt, ParseError>)
      requires Valid()
      modifies this
      ensures Valid()
      ensures Parsed(r, current) == Grammar.IfBranches(tokens, condition, old(current))
      decreases |tokens| - current, 81
    {
      ghost var t0 := Grammar.Statement(tokens, current);
      var thenBranch := Statement();
      assert Parsed(thenBranch, current) == t0;
      if thenBranch.Err? {
        r := thenBranch;
      } else {
        r := ElseBranch(condition, thenBranch.value);
      }
    }

    method ElseBranch(condition: Expr, thenBranch: Stmt) returns (r: Result<Stmt, ParseError>)
      requires Valid()
      modifies this
      ensures Valid()
      ensures Parsed(r, current) == Grammar.ElseBranch(tokens, condition, thenBranch, old(current))
      decreases |tokens| - current, 81
    {
      if CheckToken(Else) {
        Advance();
        ghost var e0 := Grammar.Statement(tokens, current);
        var elseBranch := Statement();
        assert Parsed(elseBranch, current) == e0;
        if elseBranch.Err? {
          r := elseBranch;
        } else {
          r := Ok(Stmt.If(condition, thenBranch, Some(elseBranch.value)));
        }
      } else {
        r := Ok(Stmt.If(condition, thenBranch, None));
      }
    }

    method WhileStatement() returns (r: Result<Stmt, ParseError>)
      requires Valid()
      modifies this
      ensures Valid()
      ensures Parsed(r, current) == Grammar.WhileStatement(tokens, old(current))
      decreases |tokens| - current, 82
    {
      if !CheckToken(LeftParen) {
        r := Err(ExpectParenAfterWhile);
      } else {
        Advance();
        ghost var c0 := Grammar.Expression(tokens, current);
        var condition := Expression();
        assert Parsed(condition, current) == c0;
        if condition.Err? {
          r := Err(condition.error);
        } else if !CheckToken(RightParen) {
          r := Err(ExpectParenAfterCondition);
        } else {
          Advance();
          r := WhileBody(condition.value);
        }
      }
    }

    method WhileBody(condition: Expr) returns (r: Result<Stmt, ParseError>)
      requires Valid()
      modifies this
      ensures Valid()
      ensures Parsed(r, current) == Grammar.WhileBody(tokens, condition, old(current))
      decreases |tokens| - current, 81
    {
      ghost var b0 := Grammar.Statement(tokens, current);
      var body := Statement();
      assert Parsed(body, current) == b0;
      if body.Err? {
        r := body;
      } else {
        r := Ok(Stmt.While(condition, body.value));
      }
    }

    method ReturnStatement() returns (r: Result<Stmt, ParseError>)
      requires Valid()
      modifies this
      ensures Valid()
      ensures Parsed(r, current) == Grammar.ReturnStatement(tokens, old(current))
      decreases |tokens| - current, 77
    {
      if CheckToken(Semicolon) || CheckToken(Newline) {
        r := ReturnEnd(None);
      } else {
        ghost var e0 := Grammar.Expression(tokens, current);
        var e := Expression();
        assert Parsed(e, current) == e0;
        if e.Err? {
          r := Err(e.error);
        } else {
          r := ReturnEnd(Some(e.value));
        }
      }
    }

    /** The terminator after a `return` and its optional value. */
    method ReturnEnd(value: Option<Expr>) returns (r: Result<Stmt, ParseError>)
      requires Valid()
      modifies this
      ensures Valid()
      ensures Parsed(r, current) == Grammar.ReturnEnd(tokens, value, old(current))
    {
      var ended := MatchTerminator();
      if ended {
        r := Ok(Stmt.Return(value));
      } else {
        r := Err(ExpectReturnTerminator);
      }
    }

    /** `block`, called just after `{`. */
    method Block() returns (r: Result<seq<Stmt>, ParseError>)
      requires Valid()
      modifies this
      ensures Valid()
      ensures Parsed(r, current) == Grammar.Block(tokens, old(current))
      decreases |tokens| - current, 96
    {
      var statements: seq<Stmt> := [];
      SkipNewlines();
      ghost var all := BlockLoop(tokens, current, []);
      while !CheckToken(RightBrace) && !IsAtEnd()
        invariant Valid()
        invariant all == BlockLoop(tokens, current, statements)
        decreases |tokens| - current
      {
        ghost var d0 := Grammar.Declaration(tokens, current);
        var d := Declaration();
        assert Parsed(d, current) == d0;
        if d.Err? {
          return Err(d.error);
        }
        statements := statements + [d.value];
        SkipNewlines();
      }
      if !CheckToken(RightBrace) {
        r := Err(ExpectBraceAfterBlock);
      } else {
        Advance();
        r := Ok(statements);
      }
    }

    method ExpressionStatement() returns (r: Result<Stmt, ParseError>)
      requires Valid()
      modifies this
      ensures Valid()
      ensures Parsed(r, current) == Grammar.ExpressionStatement(tokens, old(current))
      decreases |tokens| - current, 75
    {
      ghost var e0 := Grammar.Expression(tokens, current);
      var e := Expression();
      assert Parsed(e, current) == e0;
      if e.Err? {
        r := Err(e.error);
      } else {
        var ended := MatchTerminator();
        if ended {
          r := Ok(Stmt.Expression(e.value));
        } else {
          r := Err(ExpectExpressionTerminator);
        }
      }
    }

    // ---- Expressions ----

    method Expression() returns (r: Result<Expr, ParseError>)
      requires Valid()
      modifies this
      ensures Valid()
      ensures Parsed(r, current) == Grammar.Expression(tokens, old(current))
      decreases |tokens| - current, 70
    {
      SkipNewlines();
      r := Assignment();
    }

    method Assignment() returns (r: Result<Expr, ParseError>)
      requires Valid()
      modifies this
      ensures Valid()
      ensures Parsed(r, current) == Grammar.Assignment(tokens, old(current))
      decreases |tokens| - current, 69
    {
      SkipNewlines();
      ghost var e0 := Grammar.BinaryLevel(tokens, Equality, current);
      var expr := BinaryLevel(Equality);
      assert Parsed(expr, current) == e0;
      if expr.Err? {
        r := expr;
      } else {
        SkipNewlines();
        if CheckToken(Equal) {
          Advance();
          SkipNewlines();
          r := AssignValue(expr.value);
        } else {
          r := expr;
        }
      }
    }

    method AssignValue(target: Expr) returns (r: Result<Expr, ParseError>)
      requires Valid()
      modifies this
      ensures Valid()
      ensures Parsed(r, current) == Grammar.AssignValue(tokens, target, old(current))
      decreases |tokens| - current, 70
    {
      ghost var v0 := Grammar.Assignment(tokens, current);
      var value := Assignment();
      assert Parsed(value, current) == v0;
      if value.Err? {
        r := value;
      } else if target.Variable? {
        r := Ok(Assign(target.name, value.value));
      } else {
        r := Err(InvalidAssignmentTarget);
      }
    }

    /** `equality`, `comparison`, `term` and `factor`, by level. */
    method BinaryLevel(level: nat) returns (r: Result<Expr, ParseError>)
      requires Valid() && level <= Equality
      modifies this
      ensures Valid()
      ensures Parsed(r, current) == Grammar.BinaryLevel(tokens, level, old(current))
      decreases |tokens| - current, 22 + 2 * level
    {
      ghost var left0 := Grammar.Operand(tokens, level, current);
      var left := Operand(level);
      assert Parsed(left, current) == left0;
      if left.Err? {
        r := left;
      } else {
        r := BinaryTail(level, left.value);
      }
    }

    /** The next tighter level, or `unary` below `factor`. */
    method Operand(level: nat) returns (r: Result<Expr, ParseError>)
      requires Valid() && level <= Equality
      modifies this
      ensures Valid()
      ensures Parsed(r, current) == Grammar.Operand(tokens, level, old(current))
      decreases |tokens| - current, 21 + 2 * level
    {
      if level == Factor {
        r := Unary();
      } else {
        r := BinaryLevel(level - 1);
      }
    }

    /** The operator loop of a binary level. */
    method BinaryTail(level: nat, left: Expr) returns (r: Result<Expr, ParseError>)
      requires Valid() && level <= Equality
      modifies this
      ensures Valid()
      ensures Parsed(r, current) == Grammar.BinaryTail(tokens, level, left, old(current))
      decreases |tokens| - current, 22 + 2 * level
    {
      var expr := left;
      ghost var tail := Grammar.BinaryTail(tokens, level, expr, current);
      while tokens[current].kind in Operators(level)
        invariant Valid()
        invariant tail == Grammar.BinaryTail(tokens, level, expr, current)
        decreases |tokens| - current
      {
        var operator := tokens[current].kind;
        Advance();
        ghost var right0 := Grammar.Operand(tokens, level, current);
        var right := Operand(level);
        assert Parsed(right, current) == right0;
        if right.Err? {
          return right;
        }
        expr := Binary(expr, operator, right.value);
      }
      r := Ok(expr);
    }

    method Unary() returns (r: Result<Expr, ParseError>)
      requires Valid()
      modifies this
      ensures Valid()
      ensures Parsed(r, current) == Grammar.Unary(tokens, old(current))
      decreases |tokens| - current, 20
    {
      SkipNewlines();
      var operator := tokens[current].kind;
      if operator in PrefixOperators {
        Advance();
        r := PrefixOperand(operator);
      } else {
        r := Call();
      }
    }

    method PrefixOperand(operator: TokenType) returns (r: Result<Expr, ParseError>)
      requires Valid()
      modifies this
      ensures Valid()
      ensures Parsed(r, current) == Grammar.PrefixOperand(tokens, operator, old(current))
      decreases |tokens| - current, 21
    {
      ghost var right0 := Grammar.Unary(tokens, current);
      var right := Unary();
      assert Parsed(right, current) == right0;
      if right.Err? {
        r := right;
      } else {
        r := Ok(Expr.Unary(operator, right.value));
      }
    }

    method Call() returns (r: Result<Expr, ParseError>)
      requires Valid()
      modifies this
      ensures Valid()
      ensures Parsed(r, current) == CallExpr(tokens, old(current))
      decreases |tokens| - current, 15
    {
      ghost var e0 := Grammar.Primary(tokens, current);
      var e := Primary();
      assert Parsed(e, current) == e0;
      if e.Err? {
        return e;
      }
      var expr := e.value;
      ghost var tail := CallTail(tokens, expr, current);
      while CheckToken(LeftParen)
        invariant Valid()
        invariant tail == CallTail(tokens, expr, current)
        decreases |tokens| - current
      {
        Advance();
        SkipNewlines();
        ghost var c0 := Grammar.FinishCall(tokens, expr, current);
        var c := FinishCall(expr);
        assert Parsed(c, current) == c0;
        if c.Err? {
          return c;
        }
        expr := c.value;
      }
      r := Ok(expr);
    }

    /** `finish_call`, called just after `(`. */
    method FinishCall(callee: Expr) returns (r: Result<Expr, ParseError>)
      requires Valid()
      modifies this
      ensures Valid()
      ensures Parsed(r, current) == Grammar.FinishCall(tokens, callee, old(current))
      decreases |tokens| - current, 74
    {
      SkipNewlines();
      var arguments: Result<seq<Expr>, ParseError> := Ok([]);
      if !CheckToken(RightParen) {
        ghost var a0 := Grammar.Arguments(tokens, current, []);
        arguments := Arguments();
        assert Parsed(arguments, current) == a0;
      }
      if arguments.Err? {
        r := Err(arguments.error);
      } else {
        if !CheckToken(RightParen) {
          r := Err(ExpectParenAfterArguments);
        } else {
          Advance();
          r := Ok(Expr.Call(callee, arguments.value));
        }
      }
    }

    /** The argument loop of `finish_call`: comma-separated expressions. */
    method Arguments() returns (r: Result<seq<Expr>, ParseError>)
      requires Valid()
      modifies this
      ensures Valid()
      ensures Parsed(r, current) == Grammar.Arguments(tokens, old(current), [])
      decreases |tokens| - current, 73
    {
      var arguments: seq<Expr> := [];
      ghost var all := Grammar.Arguments(tokens, current, []);
      var more := true;
      r := Ok([]);
      while more
        invariant Valid()
        invariant more ==> all == Grammar.Arguments(tokens, current, arguments)
        invariant !more ==> Parsed(r, current) == all
        decreases |tokens| - current, more
      {
        r, more := NextArgument(arguments);
        if more {
          arguments := r.value;
        }
      }
    }

    /** One pass of the argument loop: an argument, then a comma and the
        newlines after it if one follows. */
    method NextArgument(arguments: seq<Expr>) returns (r: Result<seq<Expr>, ParseError>, more: bool)
      requires Valid()
      modifies this
      ensures Valid()
      ensures more ==> r.Ok? && old(current) < current
      ensures more ==> Grammar.Arguments(tokens, old(current), arguments) == Grammar.Arguments(tokens, current, r.value)
      ensures !more ==> Parsed(r, current) == Grammar.Arguments(tokens, old(current), arguments)
      decreases |tokens| - current, 72
    {
      ghost var e0 := Grammar.Argument(tokens, current);
      var e := Argument();
      assert Parsed(e, current) == e0;
      more := false;
      if e.Err? {
        r := Err(e.error);
      } else if CheckToken(Comma) {
        Advance();
        SkipNewlines();
        r := Ok(arguments + [e.value]);
        more := true;
      } else {
        r := Ok(arguments + [e.value]);
      }
    }

    /** One argument: the expression and the newlines around it. */
    method Argument() returns (r: Result<Expr, ParseError>)
      requires Valid()
      modifies this
      ensures Valid()
      ensures Parsed(r, current) == Grammar.Argument(tokens, old(current))
      decreases |tokens| - current, 71
    {
      SkipNewlines();
      ghost var e0 := Grammar.Expression(tokens, current);
      r := Expression();
      assert Parsed(r, current) == e0;
      if r.Ok? {
        SkipNewlines();
      }
    }

    method Primary() returns (r: Result<Expr, ParseError>)
      requires Valid()
      modifies this
      ensures Valid()
      ensures Parsed(r, current) == Grammar.Primary(tokens, old(current))
      decreases |tokens| - current, 10
    {
      var kind := tokens[current].kind;
      match kind
      case False =>
        Advance();
        r := Ok(Literal(Literal.Boolean(false)));
      case True =>
        Advance();
        r := Ok(Literal(Literal.Boolean(true)));
      case Nil =>
        Advance();
        r := Ok(Literal(Literal.Nil));
      case Number(n) =>
        Advance();
        r := Ok(Literal(Literal.Number(n)));
      case String(s) =>
        Advance();
        r := Ok(Literal(Literal.String(s)));
      case Identifier(_) =>
        Advance();
        r := Ok(Variable(tokens[current - 1].lexeme));
      case LeftParen =>
        Advance();
        SkipNewlines();
        r := Grouped();
      case _ =>
        r := Err(ExpectExpression);
    }

    method Grouped() returns (r: Result<Expr, ParseError>)
      requires Valid()
      modifies this
      ensures Valid()
      ensures Parsed(r, current) == Grammar.Grouped(tokens, old(current))
      decreases |tokens| - current, 73
    {
      ghost var e0 := Grammar.Expression(tokens, current);
      var e := Expression();
      assert Parsed(e, current) == e0;
      if e.Err? {
        r := e;
      } else {
        SkipNewlines();
        if !CheckToken(RightParen) {
          r := Err(ExpectParenAfterExpression);
        } else {
          Advance();
          r := Ok(Grouping(e.value));
        }
      }
    }
  }
}
