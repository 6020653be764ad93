/** The recursive-descent parser as functions of the token sequence and a
    cursor position. Each returns what the source's method returns together
    with the cursor position it leaves behind, so the `Parser` class can be
    proved to compute exactly these. */
module Grammar {
  import opened Wrappers
  import opened Tokens
  import opened Ast

  /** A token stream as the lexer delivers it: ending with EOF. */
  predicate WellFormed(toks: seq<Token>)
  {
    |toks| >= 1 && toks[|toks| - 1].kind == EOF
  }

  /** The parser's error messages, one constructor per message; `Message`
      gives the exact text the parser reports. */
  datatype ParseError =
    | ExpectVariableName | ExpectVarTerminator
    | ExpectFunctionName | ExpectParenAfterFunctionName | TooManyParameters | ExpectParameterName
    | ExpectParenAfterParameters | ExpectBraceBeforeBody
    | ExpectPrintTerminator | ExpectParenAfterIf | ExpectParenAfterIfCondition
    | ExpectParenAfterWhile | ExpectParenAfterCondition | ExpectReturnTerminator
    | ExpectBraceAfterBlock | ExpectExpressionTerminator | InvalidAssignmentTarget
    | ExpectParenAfterArguments | ExpectParenAfterExpression | ExpectExpression

  function Message(e: ParseError): string
  {
    match e
    case ExpectVariableName => "Expect variable name."
    case ExpectVarTerminator => "Expect ';' or newline after variable declaration."
    case ExpectFunctionName => "Expect function name."
    case ExpectParenAfterFunctionName => "Expect '(' after function name."
    case TooManyParameters => "Cannot have more than 255 parameters."
    case ExpectParameterName => "Expect parameter name."
    case ExpectParenAfterParameters => "Expect ')' after parameters."
    case ExpectBraceBeforeBody => "Expect '{' before function body."
    case ExpectPrintTerminator => "Expect ';' or newline after value."
    case ExpectParenAfterIf => "Expect '(' after 'if'."
    case ExpectParenAfterIfCondition => "Expect ')' after if condition."
    case ExpectParenAfterWhile => "Expect '(' after 'while'."
    case ExpectParenAfterCondition => "Expect ')' after condition."
    case ExpectReturnTerminator => "Expect ';' or newline after return value."
    case ExpectBraceAfterBlock => "Expect '}' after block."
    case ExpectExpressionTerminator => "Expect ';' or newline after expression."
    case InvalidAssignmentTarget => "Invalid assignment target."
    case ExpectParenAfterArguments => "Expect ')' after arguments."
    case ExpectParenAfterExpression => "Expect ')' after expression."
    case ExpectExpression => "Expect expression."
  }

  datatype Parsed<T> = Parsed(result: Result<T, ParseError>, pos: nat)

  predicate AtEnd(toks: seq<Token>, pos: nat)
    requires pos < |toks|
  {
    toks[pos].kind == EOF
  }

  /** `check`: never true at EOF; an Identifier of any name matches. */
  predicate Check(toks: seq<Token>, pos: nat, kind: TokenType)
    requires pos < |toks|
  {
    !AtEnd(toks, pos) && (if kind.Identifier? then toks[pos].kind.Identifier? else toks[pos].kind == kind)
  }

  /** `skip_newlines`. */
  function SkipNewlines(toks: seq<Token>, pos: nat): (p: nat)
    requires WellFormed(toks) && pos < |toks|
    ensures pos <= p < |toks| && !Check(toks, p, Newline)
    decreases |toks| - pos
  {
    if Check(toks, pos, Newline) then SkipNewlines(toks, pos + 1) else pos
  }

  /** The statement terminator: a `;` or a Newline, consumed. */
  function Terminator(toks: seq<Token>, pos: nat): (r: Option<nat>)
    requires WellFormed(toks) && pos < |toks|
    ensures r.Some? <==> toks[pos].kind in {Semicolon, Newline}
    ensures r.Some? ==> r.value == pos + 1 < |toks|
  {
    if Check(toks, pos, Semicolon) || Check(toks, pos, Newline) then Some(pos + 1) else None
  }

  /** Failure at `pos` with `message`. */
  function Fail<T>(message: ParseError, pos: nat): Parsed<T>
  {
    Parsed(Err(message), pos)
  }

  // ---- Declarations and statements ----

  /** `parse`: newlines are skipped before, between and after declarations;
      the first error is the result. */
  function Parse(toks: seq<Token>): (r: Parsed<seq<Stmt>>)
    requires WellFormed(toks)
    ensures r.pos < |toks|
  {
    ParseLoop(toks, SkipNewlines(toks, 0), [])
  }

  function ParseLoop(toks: seq<Token>, pos: nat, acc: seq<Stmt>): (r: Parsed<seq<Stmt>>)
    requires WellFormed(toks) && pos < |toks|
    ensures pos <= r.pos < |toks|
    ensures r.result.Ok? ==> AtEnd(toks, r.pos)
    decreases |toks| - pos, 100
  {
    if AtEnd(toks, pos) then Parsed(Ok(acc), pos)
    else
      var d := Declaration(toks, pos);
      if d.result.Err? then Fail(d.result.error, d.pos)
      else ParseLoop(toks, SkipNewlines(toks, d.pos), acc + [d.result.value])
  }

  function Declaration(toks: seq<Token>, pos: nat): (r: Parsed<Stmt>)
    requires WellFormed(toks) && pos < |toks|
    ensures pos <= r.pos < |toks| && (r.result.Ok? ==> pos < r.pos)
    decreases |toks| - pos, 90
  {
    var p := SkipNewlines(toks, pos);
    if Check(toks, p, TokenType.Var) then VarDeclaration(toks, p + 1)
    else if Check(toks, p, Fun) then FunctionDeclaration(toks, p + 1)
    else Statement(toks, p)
  }

  /** `var_declaration`, entered after `var`: a name, an optional
      `= initializer`, then a terminator; newlines may separate the parts. */
  function VarDeclaration(toks: seq<Token>, pos: nat): (r: Parsed<Stmt>)
    requires WellFormed(toks) && pos < |toks|
    ensures pos <= r.pos < |toks| && (r.result.Ok? ==> pos < r.pos)
    ensures r.result.Ok? ==> r.result.value.Var? && toks[r.pos - 1].kind == Semicolon
    decreases |toks| - pos, 85
  {
    if !Check(toks, pos, Identifier("")) then Fail(ExpectVariableName, pos)
    else
      var p := SkipNewlines(toks, pos + 1);
      if Check(toks, p, Equal) then VarInitializer(toks, toks[pos].lexeme, SkipNewlines(toks, p + 1))
      else VarEnd(toks, toks[pos].lexeme, None, SkipNewlines(toks, p))
  }

  /** The initializer of a `var` declaration, entered after `=`. */
  function VarInitializer(toks: seq<Token>, name: string, pos: nat): (r: Parsed<Stmt>)
    requires WellFormed(toks) && pos < |toks|
    ensures pos <= r.pos < |toks| && (r.result.Ok? ==> pos < r.pos)
    ensures r.result.Ok? ==> r.result.value.Var? && toks[r.pos - 1].kind == Semicolon
    decreases |toks| - pos, 84
  {
    var e := Expression(toks, pos);
    if e.result.Err? then Fail(e.result.error, e.pos)
    else VarEnd(toks, name, Some(e.result.value), SkipNewlines(toks, e.pos))
  }

  /** The terminator of a `var` declaration. */
  function VarEnd(toks: seq<Token>, name: string, init: Option<Expr>, pos: nat): (r: Parsed<Stmt>)
    requires WellFormed(toks) && pos < |toks|
    ensures pos <= r.pos < |toks|
  {
    match Terminator(toks, pos)
    case None => Fail(ExpectVarTerminator, pos)
    case Some(end) => Parsed(Ok(Stmt.Var(name, init)), end)
  }

  const MaxParameters := 255

  /** `function`, entered after `fun`: a name and a parenthesised parameter
      list, then the body. */
  function FunctionDeclaration(toks: seq<Token>, pos: nat): (r: Parsed<Stmt>)
    requires WellFormed(toks) && pos < |toks|
    ensures pos <= r.pos < |toks| && (r.result.Ok? ==> pos < r.pos)
    decreases |toks| - pos, 97
  {
    if !Check(toks, pos, Identifier("")) then Fail(ExpectFunctionName, pos)
    else if !Check(toks, pos + 1, LeftParen) then Fail(ExpectParenAfterFunctionName, pos + 1)
    else
      var params := ParameterList(toks, pos + 2);
      if params.result.Err? then Fail(params.result.error, params.pos)
      else FunctionBody(toks, toks[pos].lexeme, params.result.value, params.pos)
  }

  /** The parameter list, entered after `(`: empty when `)` follows. */
  function ParameterList(toks: seq<Token>, pos: nat): (r: Parsed<seq<string>>)
    requires WellFormed(toks) && pos < |toks|
    ensures pos <= r.pos < |toks|
  {
    if Check(toks, pos, RightParen) then Parsed(Ok([]), pos) else Parameters(toks, pos, [])
  }

  /** The rest of a function declaration: `)`, `{` and the block body. */
  function FunctionBody(toks: seq<Token>, name: string, params: seq<string>, pos: nat): (r: Parsed<Stmt>)
    requires WellFormed(toks) && pos < |toks|
    ensures pos <= r.pos < |toks| && (r.result.Ok? ==> pos < r.pos)
    decreases |toks| - pos, 97
  {
    if !Check(toks, pos, RightParen) then Fail(ExpectParenAfterParameters, pos)
    else if !Check(toks, pos + 1, LeftBrace) then Fail(ExpectBraceBeforeBody, pos + 1)
    else
      var body := Block(toks, pos + 2);
      if body.result.Err? then Fail(body.result.error, body.pos)
      else Parsed(Ok(Stmt.Function(name, params, body.result.value)), body.pos)
  }

  /** The parameter loop: the 255-parameter cap is checked before each
      parameter is read. */
  function Parameters(toks: seq<Token>, pos: nat, params: seq<string>): (r: Parsed<seq<string>>)
    requires WellFormed(toks) && pos < |toks|
    ensures pos <= r.pos < |toks|
    decreases |toks| - pos
  {
    if |params| >= MaxParameters then Fail(TooManyParameters, pos)
    else if !Check(toks, pos, Identifier("")) then Fail(ExpectParameterName, pos)
    else
      var more := params + [toks[pos].lexeme];
      if Check(toks, pos + 1, Comma) then Parameters(toks, pos + 2, more)
      else Parsed(Ok(more), pos + 1)
  }

  function Statement(toks: seq<Token>, pos: nat): (r: Parsed<Stmt>)
    requires WellFormed(toks) && pos < |toks|
    ensures pos <= r.pos < |toks| && (r.result.Ok? ==> pos < r.pos)
    ensures r.result.Ok? && r.result.value.If? && r.result.value.elseBranch.None? ==> !Check(toks, r.pos, Else)
    decreases |toks| - pos, 80
  {
    var p := SkipNewlines(toks, pos);
    if Check(toks, p, TokenType.Print) then PrintStatement(toks, p + 1)
    else if Check(toks, p, TokenType.If) then IfStatement(toks, p + 1)
    else if Check(toks, p, TokenType.While) then WhileStatement(toks, p + 1)
    else if Check(toks, p, TokenType.Return) then ReturnStatement(toks, p + 1)
    else if Check(toks, p, LeftBrace) then BlockStatement(toks, p + 1)
    else ExpressionStatement(toks, p)
  }

  /** A block used as a statement, entered after `{`. */
  function BlockStatement(toks: seq<Token>, pos: nat): (r: Parsed<Stmt>)
    requires WellFormed(toks) && pos < |toks|
    ensures pos <= r.pos < |toks| && (r.result.Ok? ==> pos < r.pos)
    ensures r.result.Ok? ==> r.result.value.Block?
    decreases |toks| - pos, 98
  {
    var b := Block(toks, pos);
    if b.result.Err? then Fail(b.result.error, b.pos) else Parsed(Ok(Stmt.Block(b.result.value)), b.pos)
  }

  function PrintStatement(toks: seq<Token>, pos: nat): (r: Parsed<Stmt>)
    requires WellFormed(toks) && pos < |toks|
    ensures pos <= r.pos < |toks| && (r.result.Ok? ==> pos < r.pos)
    ensures r.result.Ok? ==> r.result.value.Print? && toks[r.pos - 1].kind == Semicolon
    decreases |toks| - pos, 77
  {
    var e := Expression(toks, pos);
    if e.result.Err? then Fail(e.result.error, e.pos)
    else match Terminator(toks, e.pos)
      case None => Fail(ExpectPrintTerminator, e.pos)
      case Some(end) => Parsed(Ok(Stmt.Print(e.result.value)), end)
  }

  /** `if_statement`, entered after `if`: a parenthesised condition, then
      the branches. */
  function IfStatement(toks: seq<Token>, pos: nat): (r: Parsed<Stmt>)
    requires WellFormed(toks) && pos < |toks|
    ensures pos <= r.pos < |toks| && (r.result.Ok? ==> pos < r.pos)
    ensures r.result.Ok? ==> r.result.value.If?
    ensures r.result.Ok? && r.result.value.If? && r.result.value.elseBranch.None? ==> !Check(toks, r.pos, Else)
    ensures r.result.Ok? && r.result.value.If? && r.result.value.elseBranch.Some? && r.result.value.thenBranch.If?
      ==> r.result.value.thenBranch.elseBranch.Some?
    decreases |toks| - pos, 82
  {
    if !Check(toks, pos, LeftParen) then Fail(ExpectParenAfterIf, pos)
    else
      var c := Expression(toks, pos + 1);
      if c.result.Err? then Fail(c.result.error, c.pos)
      else if !Check(toks, c.pos, RightParen) then Fail(ExpectParenAfterIfCondition, c.pos)
      else IfBranches(toks, c.result.value, c.pos + 1)
  }

  /** The `then` branch of an `if`, then its optional `else`. */
  function IfBranches(toks: seq<Token>, condition: Expr, pos: nat): (r: Parsed<Stmt>)
    requires WellFormed(toks) && pos < |toks|
    ensures pos <= r.pos < |toks| && (r.result.Ok? ==> pos < r.pos)
    ensures r.result.Ok? ==> r.result.value.If?
    ensures r.result.Ok? && r.result.value.If? && r.result.value.elseBranch.None? ==> !Check(toks, r.pos, Else)
    ensures r.result.Ok? && r.result.value.If? && r.result.value.elseBranch.Some? && r.result.value.thenBranch.If?
      ==> r.result.value.thenBranch.elseBranch.Some?
    decreases |toks| - pos, 81
  {
    var t := Statement(toks, pos);
    if t.result.Err? then t
    else ElseBranch(toks, condition, t.result.value, t.pos)
  }

  /** An `else` right after the `then` branch is taken. */
  function ElseBranch(toks: seq<Token>, condition: Expr, thenBranch: Stmt, pos: nat): (r: Parsed<Stmt>)
    requires WellFormed(toks) && pos < |toks|
    ensures pos <= r.pos < |toks|
    ensures r.result.Ok? ==> r.result.value.If? && r.result.value.thenBranch == thenBranch
    ensures r.result.Ok? && r.result.value.If? ==> (r.result.value.elseBranch.Some? <==> Check(toks, pos, Else))
    ensures r.result.Ok? && r.result.value.If? && r.result.value.elseBranch.None? ==> !Check(toks, r.pos, Else)
    decreases |toks| - pos, 81
  {
    if Check(toks, pos, Else) then
      var e := Statement(toks, pos + 1);
      if e.result.Err? then e
      else Parsed(Ok(Stmt.If(condition, thenBranch, Some(e.result.value))), e.pos)
    else Parsed(Ok(Stmt.If(condition, thenBranch, None)), pos)
  }

  /** `while_statement`, entered after `while`. */
  function WhileStatement(toks: seq<Token>, pos: nat): (r: Parsed<Stmt>)
    requires WellFormed(toks) && pos < |toks|
    ensures pos <= r.pos < |toks| && (r.result.Ok? ==> pos < r.pos)
    ensures r.result.Ok? ==> r.result.value.While?
    decreases |toks| - pos, 82
  {
    if !Check(toks, pos, LeftParen) then Fail(ExpectParenAfterWhile, pos)
    else
      var c := Expression(toks, pos + 1);
      if c.result.Err? then Fail(c.result.error, c.pos)
      else if !Check(toks, c.pos, RightParen) then Fail(ExpectParenAfterCondition, c.pos)
      else WhileBody(toks, c.result.value, c.pos + 1)
  }

  function WhileBody(toks: seq<Token>, condition: Expr, pos: nat): (r: Parsed<Stmt>)
    requires WellFormed(toks) && pos < |toks|
    ensures pos <= r.pos < |toks| && (r.result.Ok? ==> pos < r.pos)
    ensures r.result.Ok? ==> r.result.value.While?
    decreases |toks| - pos, 81
  {
    var b := Statement(toks, pos);
    if b.result.Err? then b
    else Parsed(Ok(Stmt.While(condition, b.result.value)), b.pos)
  }

  function ReturnStatement(toks: seq<Token>, pos: nat): (r: Parsed<Stmt>)
    requires WellFormed(toks) && pos < |toks|
    ensures pos <= r.pos < |toks| && (r.result.Ok? ==> pos < r.pos)
    ensures r.result.Ok? ==> r.result.value.Return? && toks[r.pos - 1].kind in {Semicolon, Newline}
    decreases |toks| - pos, 77
  {
    if Check(toks, pos, Semicolon) || Check(toks, pos, Newline) then ReturnEnd(toks, None, pos)
    else
      var e := Expression(toks, pos);
      if e.result.Err? then Fail(e.result.error, e.pos) else ReturnEnd(toks, Some(e.result.value), e.pos)
  }

  /** The terminator after `return` and its optional value. */
  function ReturnEnd(toks: seq<Token>, value: Option<Expr>, pos: nat): (r: Parsed<Stmt>)
    requires WellFormed(toks) && pos < |toks|
    ensures pos <= r.pos < |toks| && (r.result.Ok? ==> pos < r.pos)
    ensures r.result.Ok? ==> r.result.value.Return? && toks[r.pos - 1].kind in {Semicolon, Newline}
  {
    match Terminator(toks, pos)
    case None => Fail(ExpectReturnTerminator, pos)
    case Some(end) => Parsed(Ok(Stmt.Return(value)), end)
  }


  /** `block`, entered just after `{`: declarations up to the matching `}`. */
  function Block(toks: seq<Token>, pos: nat): (r: Parsed<seq<Stmt>>)
    requires WellFormed(toks) && pos < |toks|
    ensures pos <= r.pos < |toks| && (r.result.Ok? ==> pos < r.pos)
    ensures r.result.Ok? ==> toks[r.pos - 1].kind == RightBrace
    decreases |toks| - pos, 96
  {
    BlockLoop(toks, SkipNewlines(toks, pos), [])
  }

  function BlockLoop(toks: seq<Token>, pos: nat, acc: seq<Stmt>): (r: Parsed<seq<Stmt>>)
    requires WellFormed(toks) && pos < |toks|
    ensures pos <= r.pos < |toks| && (r.result.Ok? ==> pos < r.pos)
    ensures r.result.Ok? ==> toks[r.pos - 1].kind == RightBrace
    decreases |toks| - pos, 95
  {
    if !Check(toks, pos, RightBrace) && !AtEnd(toks, pos) then
      var d := Declaration(toks, pos);
      if d.result.Err? then Fail(d.result.error, d.pos)
      else BlockLoop(toks, SkipNewlines(toks, d.pos), acc + [d.result.value])
    else if !Check(toks, pos, RightBrace) then Fail(ExpectBraceAfterBlock, pos)
    else Parsed(Ok(acc), pos + 1)
  }

  function ExpressionStatement(toks: seq<Token>, pos: nat): (r: Parsed<Stmt>)
    requires WellFormed(toks) && pos < |toks|
    ensures pos <= r.pos < |toks| && (r.result.Ok? ==> pos < r.pos)
    ensures r.result.Ok? ==> r.result.value.Expression? && toks[r.pos - 1].kind == Semicolon
    decreases |toks| - pos, 75
  {
    var e := Expression(toks, pos);
    if e.result.Err? then Fail(e.result.error, e.pos)
    else match Terminator(toks, e.pos)
      case None => Fail(ExpectExpressionTerminator, e.pos)
      case Some(end) => Parsed(Ok(Stmt.Expression(e.result.value)), end)
  }

  // ---- Expressions ----

  function Expression(toks: seq<Token>, pos: nat): (r: Parsed<Expr>)
    requires WellFormed(toks) && pos < |toks|
    ensures pos <= r.pos < |toks| && (r.result.Ok? ==> pos < r.pos)
    ensures r.result.Ok? ==> !Check(toks, r.pos, Newline)
    decreases |toks| - pos, 70
  {
    Assignment(toks, SkipNewlines(toks, pos))
  }

  /** `assignment`: an equality-level expression, optionally followed by
      `=` and the assigned value. */
  function Assignment(toks: seq<Token>, pos: nat): (r: Parsed<Expr>)
    requires WellFormed(toks) && pos < |toks|
    ensures pos <= r.pos < |toks| && (r.result.Ok? ==> pos < r.pos)
    ensures r.result.Ok? ==> !Check(toks, r.pos, Newline)
    decreases |toks| - pos, 69
  {
    var e := BinaryLevel(toks, Equality, SkipNewlines(toks, pos));
    if e.result.Err? then e
    else
      var p := SkipNewlines(toks, e.pos);
      if Check(toks, p, Equal) then AssignValue(toks, e.result.value, SkipNewlines(toks, p + 1))
      else Parsed(Ok(e.result.value), p)
  }

  /** The right side of `=`: another assignment (so `=` is right-associative);
      only a variable may be assigned. */
  function AssignValue(toks: seq<Token>, target: Expr, pos: nat): (r: Parsed<Expr>)
    requires WellFormed(toks) && pos < |toks|
    ensures pos <= r.pos < |toks| && (r.result.Ok? ==> pos < r.pos)
    ensures r.result.Ok? ==> !Check(toks, r.pos, Newline)
    decreases |toks| - pos, 70
  {
    var v := Assignment(toks, pos);
    if v.result.Err? then v
    else if target.Variable? then Parsed(Ok(Assign(target.name, v.result.value)), v.pos)
    else Fail(InvalidAssignmentTarget, v.pos)
  }

  /** The four left-associative binary levels, tightest first. */
  const Factor := 0
  const Term := 1
  const Comparison := 2
  const Equality := 3

  /** The operators of a binary level. */
  function Operators(level: nat): seq<TokenType>
  {
    if level == Factor then [Slash, Star]
    else if level == Term then [Minus, Plus]
    else if level == Comparison then [Greater, GreaterEqual, Less, LessEqual]
    else [EqualEqual, BangEqual]
  }

  const PrefixOperators: seq<TokenType> := [Bang, Minus]

  /** `factor`, `term`, `comparison` and `equality`: an operand of the next
      tighter level, then any number of `operator operand` pairs. */
  function BinaryLevel(toks: seq<Token>, level: nat, pos: nat): (r: Parsed<Expr>)
    requires WellFormed(toks) && pos < |toks| && level <= Equality
    ensures pos <= r.pos < |toks| && (r.result.Ok? ==> pos < r.pos)
    decreases |toks| - pos, 22 + 2 * level
  {
    var left := Operand(toks, level, pos);
    if left.result.Err? then left else BinaryTail(toks, level, left.result.value, left.pos)
  }

  function Operand(toks: seq<Token>, level: nat, pos: nat): (r: Parsed<Expr>)
    requires WellFormed(toks) && pos < |toks| && level <= Equality
    ensures pos <= r.pos < |toks| && (r.result.Ok? ==> pos < r.pos)
    decreases |toks| - pos, 21 + 2 * level
  {
    if level == Factor then Unary(toks, pos) else BinaryLevel(toks, level - 1, pos)
  }

  /** The `while` loop of a binary level, with the tree built so far. */
  function BinaryTail(toks: seq<Token>, level: nat, left: Expr, pos: nat): (r: Parsed<Expr>)
    requires WellFormed(toks) && pos < |toks| && level <= Equality
    ensures pos <= r.pos < |toks|
    decreases |toks| - pos, 22 + 2 * level
  {
    if toks[pos].kind in Operators(level) then
      var right := Operand(toks, level, pos + 1);
      if right.result.Err? then right
      else BinaryTail(toks, level, Binary(left, toks[pos].kind, right.result.value), right.pos)
    else Parsed(Ok(left), pos)
  }

  /** `unary`: prefix `!` and `-` nest; otherwise a call expression. */
  function Unary(toks: seq<Token>, pos: nat): (r: Parsed<Expr>)
    requires WellFormed(toks) && pos < |toks|
    ensures pos <= r.pos < |toks| && (r.result.Ok? ==> pos < r.pos)
    decreases |toks| - pos, 20
  {
    var p := SkipNewlines(toks, pos);
    if toks[p].kind in PrefixOperators then PrefixOperand(toks, toks[p].kind, p + 1)
    else CallExpr(toks, p)
  }

  /** The operand of a prefix operator. */
  function PrefixOperand(toks: seq<Token>, operator: TokenType, pos: nat): (r: Parsed<Expr>)
    requires WellFormed(toks) && pos < |toks|
    ensures pos <= r.pos < |toks| && (r.result.Ok? ==> pos < r.pos)
    decreases |toks| - pos, 21
  {
    var right := Unary(toks, pos);
    if right.result.Err? then right
    else Parsed(Ok(Expr.Unary(operator, right.result.value)), right.pos)
  }

  /** `call`: a primary followed by any number of argument lists. */
  function CallExpr(toks: seq<Token>, pos: nat): (r: Parsed<Expr>)
    requires WellFormed(toks) && pos < |toks|
    ensures pos <= r.pos < |toks| && (r.result.Ok? ==> pos < r.pos)
    decreases |toks| - pos, 15
  {
    var e := Primary(toks, pos);
    if e.result.Err? then e else CallTail(toks, e.result.value, e.pos)
  }

  function CallTail(toks: seq<Token>, callee: Expr, pos: nat): (r: Parsed<Expr>)
    requires WellFormed(toks) && pos < |toks|
    ensures pos <= r.pos < |toks|
    decreases |toks| - pos, 14
  {
    if Check(toks, pos, LeftParen) then
      var c := FinishCall(toks, callee, SkipNewlines(toks, pos + 1));
      if c.result.Err? then c else CallTail(toks, c.result.value, c.pos)
    else Parsed(Ok(callee), pos)
  }

  /** `finish_call`, entered after `(`: comma-separated arguments, then `)`. */
  function FinishCall(toks: seq<Token>, callee: Expr, pos: nat): (r: Parsed<Expr>)
    requires WellFormed(toks) && pos < |toks|
    ensures pos <= r.pos < |toks| && (r.result.Ok? ==> pos < r.pos)
    ensures r.result.Ok? ==> toks[r.pos - 1].kind == RightParen && r.result.value.Call? && r.result.value.callee == callee
    decreases |toks| - pos, 74
  {
    var p := SkipNewlines(toks, pos);
    var args: Parsed<seq<Expr>> := if !Check(toks, p, RightParen) then Arguments(toks, p, []) else Parsed(Ok([]), p);
    if args.result.Err? then Fail(args.result.error, args.pos)
    else if !Check(toks, args.pos, RightParen) then Fail(ExpectParenAfterArguments, args.pos)
    else Parsed(Ok(Call(callee, args.result.value)), args.pos + 1)
  }

  function Arguments(toks: seq<Token>, pos: nat, args: seq<Expr>): (r: Parsed<seq<Expr>>)
    requires WellFormed(toks) && pos < |toks|
    ensures pos <= r.pos < |toks|
    ensures r.result.Ok? ==> |r.result.value| > |args| && r.result.value[..|args|] == args
    decreases |toks| - pos, 73
  {
    var e := Argument(toks, pos);
    if e.result.Err? then Fail(e.result.error, e.pos)
    else if Check(toks, e.pos, Comma) then Arguments(toks, SkipNewlines(toks, e.pos + 1), args + [e.result.value])
    else Parsed(Ok(args + [e.result.value]), e.pos)
  }

  /** One argument of a call, with the newlines around it. */
  function Argument(toks: seq<Token>, pos: nat): (r: Parsed<Expr>)
    requires WellFormed(toks) && pos < |toks|
    ensures pos <= r.pos < |toks|
    ensures r.result.Ok? ==> !Check(toks, r.pos, Newline)
    decreases |toks| - pos, 71
  {
    var e := Expression(toks, SkipNewlines(toks, pos));
    if e.result.Err? then e
    else Parsed(e.result, SkipNewlines(toks, e.pos))
  }

  function Primary(toks: seq<Token>, pos: nat): (r: Parsed<Expr>)
    requires WellFormed(toks) && pos < |toks|
    ensures pos <= r.pos < |toks| && (r.result.Ok? ==> pos < r.pos)
    decreases |toks| - pos, 10
  {
    match toks[pos].kind
    case False => Parsed(Ok(Literal(Literal.Boolean(false))), pos + 1)
    case True => Parsed(Ok(Literal(Literal.Boolean(true))), pos + 1)
    case Nil => Parsed(Ok(Literal(Literal.Nil)), pos + 1)
    case Number(n) => Parsed(Ok(Literal(Literal.Number(n))), pos + 1)
    case String(s) => Parsed(Ok(Literal(Literal.String(s))), pos + 1)
    case Identifier(_) => Parsed(Ok(Variable(toks[pos].lexeme)), pos + 1)
    case LeftParen => Grouped(toks, SkipNewlines(toks, pos + 1))
    case _ => Fail(ExpectExpression, pos)
  }

  /** A parenthesised expression, entered after `(`. */
  function Grouped(toks: seq<Token>, pos: nat): (r: Parsed<Expr>)
    requires WellFormed(toks) && pos < |toks|
    ensures pos <= r.pos < |toks| && (r.result.Ok? ==> pos < r.pos)
    ensures r.result.Ok? ==> toks[r.pos - 1].kind == RightParen && r.result.value.Grouping?
    decreases |toks| - pos, 73
  {
    var e := Expression(toks, pos);
    if e.result.Err? then e
    else
      var p := SkipNewlines(toks, e.pos);
      if !Check(toks, p, RightParen) then Fail(ExpectParenAfterExpression, p)
      else Parsed(Ok(Grouping(e.result.value)), p + 1)
  }
}
