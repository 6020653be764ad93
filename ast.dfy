/** The syntax tree shared by the parser and the evaluator. The parser only
    builds the first seven expression forms; `Logical`, `Get`, `Method` and
    `Array` are forms the evaluator accepts but no parsed program contains. */
module Ast {
  import opened Tokens
  import opened Wrappers

  datatype Literal = Number(n: real) | String(s: string) | Boolean(b: bool) | Nil

  datatype Expr =
    | Binary(left: Expr, op: TokenType, right: Expr)
    | Grouping(inner: Expr)
    | Literal(lit: Literal)
    | Unary(op: TokenType, right: Expr)
    | Variable(name: string)
    | Assign(name: string, value: Expr)
    | Call(callee: Expr, arguments: seq<Expr>)
    | Logical(left: Expr, op: TokenType, right: Expr)
    | Get(obj: Expr, name: string)
    | Method(obj: Expr, name: string, arguments: seq<Expr>)
    | Array(elements: seq<Expr>)

  datatype Stmt =
    | Expression(expr: Expr)
    | Print(expr: Expr)
    | Var(name: string, initializer: Option<Expr>)
    | Block(statements: seq<Stmt>)
    | If(condition: Expr, thenBranch: Stmt, elseBranch: Option<Stmt>)
    | While(condition: Expr, body: Stmt)
    | Function(name: string, params: seq<string>, functionBody: seq<Stmt>)
    | Return(value: Option<Expr>)

  // Syntactic sizes, the second component of the evaluator's termination
  // measure (the first is its fuel).

  function ExprSize(e: Expr): (n: nat)
    ensures n >= 1
  {
    match e
    case Binary(l, _, r) => 1 + ExprSize(l) + ExprSize(r)
    case Grouping(inner) => 1 + ExprSize(inner)
    case Literal(_) => 1
    case Unary(_, r) => 1 + ExprSize(r)
    case Variable(_) => 1
    case Assign(_, v) => 1 + ExprSize(v)
    case Call(c, args) => 1 + ExprSize(c) + ExprsSize(args)
    case Logical(l, _, r) => 1 + ExprSize(l) + ExprSize(r)
    case Get(o, _) => 1 + ExprSize(o)
    case Method(o, _, args) => 1 + ExprSize(o) + ExprsSize(args)
    case Array(es) => 1 + ExprsSize(es)
  }

  function ExprsSize(es: seq<Expr>): nat
  {
    if es == [] then 0 else ExprSize(es[0]) + ExprsSize(es[1..])
  }

  function OptExprSize(e: Option<Expr>): nat
  {
    match e
    case None => 0
    case Some(x) => ExprSize(x)
  }

  function StmtSize(s: Stmt): (n: nat)
    ensures n >= 1
  {
    match s
    case Expression(e) => 1 + ExprSize(e)
    case Print(e) => 1 + ExprSize(e)
    case Var(_, init) => 1 + OptExprSize(init)
    case Block(ss) => 1 + StmtsSize(ss)
    case If(c, t, els) =>
      1 + ExprSize(c) + StmtSize(t) + (match els case None => 0 case Some(x) => StmtSize(x))
    case While(c, b) => 1 + ExprSize(c) + StmtSize(b)
    case Function(_, _, _) => 1
    case Return(v) => 1 + OptExprSize(v)
  }

  function StmtsSize(ss: seq<Stmt>): nat
  {
    if ss == [] then 0 else StmtSize(ss[0]) + StmtsSize(ss[1..])
  }

  lemma {:induction false} ExprsSizeBound(es: seq<Expr>, i: nat)
    requires i < |es|
    ensures ExprSize(es[i]) <= ExprsSize(es[i..]) <= ExprsSize(es)
  {
    if i > 0 {
      ExprsSizeBound(es[1..], i - 1);
      assert es[1..][i - 1..] == es[i..];
    }
  }

  lemma {:induction false} StmtsSizeBound(ss: seq<Stmt>, i: nat)
    requires i < |ss|
    ensures StmtSize(ss[i]) <= StmtsSize(ss[i..]) <= StmtsSize(ss)
  {
    if i > 0 {
      StmtsSizeBound(ss[1..], i - 1);
      assert ss[1..][i - 1..] == ss[i..];
    }
  }
}
