/** The Python syntax tree both translators walk, restricted to the node
    kinds they distinguish, and the operator tables they render with.
    Any node kind without a handler is carried as `OtherExpr`/`OtherStmt`
    (or `Break`/`Continue`), which the translators reject. */
module Syntax {
  import opened Wrappers

  datatype BinaryOp =
    | Add | Sub | Mult | Div | Mod | Pow | LShift | RShift
    | BitOr | BitXor | BitAnd | FloorDiv | MatMult

  datatype UnaryOperator = Invert | Not | UAdd | USub

  datatype BoolOperator = And | Or

  datatype CmpOp = Eq | NotEq | Lt | LtE | Gt | GtE | Is | IsNot | In | NotIn

  /** The `BIN_OP` table; `None` where the table has no entry (a KeyError). */
  function BinOpSymbol(op: BinaryOp): Option<string>
  {
    match op
    case Add => Some("+")
    case Sub => Some("-")
    case Mult => Some("*")
    case Div => Some("/")
    case Mod => Some("%")
    case LShift => Some("<<")
    case RShift => Some(">>")
    case BitOr => Some("|")
    case BitXor => Some("^")
    case BitAnd => Some("&")
    case Pow => None
    case FloorDiv => None
    case MatMult => None
  }

  /** Reads an emitted binary operator back. */
  function ParseBinOp(sym: string): Option<BinaryOp>
  {
    if sym == "+" then Some(Add)
    else if sym == "-" then Some(Sub)
    else if sym == "*" then Some(Mult)
    else if sym == "/" then Some(Div)
    else if sym == "%" then Some(Mod)
    else if sym == "<<" then Some(LShift)
    else if sym == ">>" then Some(RShift)
    else if sym == "|" then Some(BitOr)
    else if sym == "^" then Some(BitXor)
    else if sym == "&" then Some(BitAnd)
    else None
  }

  /** The `UNARY_OP` table covers every unary operator. */
  function UnarySymbol(op: UnaryOperator): string
  {
    match op
    case Invert => "~"
    case Not => "!"
    case UAdd => "+"
    case USub => "-"
  }

  function BoolSymbol(op: BoolOperator): string
  {
    match op
    case And => "&&"
    case Or => "||"
  }

  /** The `COMPARE_OP` table; membership tests have no entry. */
  function CmpSymbol(op: CmpOp): Option<string>
  {
    match op
    case Eq => Some("==")
    case NotEq => Some("!=")
    case Lt => Some("<")
    case LtE => Some("<=")
    case Gt => Some(">")
    case GtE => Some(">=")
    case Is => Some("===")
    case IsNot => Some("!==")
    case In => None
    case NotIn => None
  }

  /** Expressions. `Attribute.load` is true for a read (`Load` context),
      false for an assignment target. `Subscript.index` is the value of
      the `Index` slice. */
  datatype Expr =
    | Name(id: string)
    | Num(n: int)
    | Str(s: string)
    | BinOp(left: Expr, op: BinaryOp, right: Expr)
    | UnaryOp(uop: UnaryOperator, operand: Expr)
    | BoolOp(bop: BoolOperator, values: seq<Expr>)
    | Compare(first: Expr, ops: seq<CmpOp>, comparators: seq<Expr>)
    | Call(func: Expr, args: seq<Expr>)
    | Attribute(value: Expr, attr: string, load: bool)
    | Subscript(container: Expr, index: Expr)
    | Dict(keys: seq<Expr>, vals: seq<Expr>)
    | List(elts: seq<Expr>)
    | Tuple(items: seq<Expr>)
    | OtherExpr(kind: string)

  /** An assignment target: a tuple target is unpacked element-wise. */
  datatype Target = Single(target: Expr) | Unpack(parts: seq<Expr>)

  /** The right-hand side of an assignment: an expression or `yield v`. */
  datatype Rhs = Computed(expr: Expr) | Yielded(yielded: Option<Expr>)

  /** `except T as n: body`. The translator prints the type node with
      Python's default object formatting, which the tree does not
      determine, so that printed form is part of the input. */
  datatype Handler = Handler(typeRepr: Option<string>, name: Option<string>, body: seq<Stmt>)

  datatype Stmt =
    | ExprStmt(value: Expr)
    | YieldStmt(result: Option<Expr>)
    | Return(retval: Option<Expr>)
    | Print(printed: seq<Expr>)
    | Assign(targets: seq<Target>, rhs: Rhs)
    | AugAssign(augTarget: Expr, aop: BinaryOp, augValue: Expr)
    | For(loopVar: Expr, iter: Expr, body: seq<Stmt>, orelse: seq<Stmt>)
    | While(test: Expr, body: seq<Stmt>, orelse: seq<Stmt>)
    | If(cond: Expr, body: seq<Stmt>, orelse: seq<Stmt>)
    | Try(body: seq<Stmt>, handlers: seq<Handler>)
    | Import
    | ImportFrom
    | Pass
    | FunctionDef(fname: string, params: seq<string>, body: seq<Stmt>)
    | ClassDef(cname: string, bases: seq<Expr>, body: seq<Stmt>)
    | Break
    | Continue
    | OtherStmt(what: string)

  datatype Module = Module(stmts: seq<Stmt>)

  /** Lowering the statement inside a function hands out state labels: a
      yield (bare or assigned), a loop, a `try`, or an `if` or class whose
      body holds one of these. */
  predicate Allocates(s: Stmt)
    decreases s, 1
  {
    match s
    case YieldStmt(_) => true
    case Assign(_, rhs) => rhs.Yielded?
    case While(_, _, _) => true
    case For(_, _, _, _) => true
    case Try(_, _) => true
    case If(_, b, e) => AllocatesAny(b) || AllocatesAny(e)
    case ClassDef(_, _, b) => AllocatesAny(b)
    case _ => false
  }

  predicate AllocatesAny(ss: seq<Stmt>)
    decreases ss, 0
  {
    |ss| > 0 && (Allocates(ss[0]) || AllocatesAny(ss[1..]))
  }

  /** The exceptions the translators raise. */
  datatype CompileError =
    | NotImplementedErr(msg: string)
    | SyntaxErr(msg: string)
    | AttributeErr(msg: string)
    | KeyErr(msg: string)
    | IndexErr(msg: string)

  /** Every symbol in the binary-operator table reads back as its operator. */
  lemma BinOpSymbolRoundTrip(op: BinaryOp)
    ensures BinOpSymbol(op).Some? ==> ParseBinOp(BinOpSymbol(op).value) == Some(op)
    ensures BinOpSymbol(op).None? <==> op in {Pow, FloorDiv, MatMult}
  {
  }

  /** Distinct operators with table entries render differently. */
  lemma BinOpSymbolInjective(a: BinaryOp, b: BinaryOp)
    requires BinOpSymbol(a).Some? && BinOpSymbol(a) == BinOpSymbol(b)
    ensures a == b
  {
    BinOpSymbolRoundTrip(a);
    BinOpSymbolRoundTrip(b);
  }
}
