/** The two translators side by side: on the expressions both handle
    the same way, the state-machine translator (with nothing bound and
    no receiver context) gives exactly the text of the flat one; calls
    differ only in going through `apply`; and a plain function or class
    opens with the same line in both. */
module Agreement {
  import opened Wrappers
  import opened Text
  import opened Syntax
  import opened Lines
  import opened YieldPoints
  import Client
  import S = StateCompiler
  import F = FlatCompiler
  import LabelTheory

  /** An unbound name renders the same in both translators when there is
      no receiver context. */
  lemma NameAgree(env: S.Env, id: string)
    requires id !in env
    ensures S.NameText(env, "", id) == F.NameText(id)
  {
  }

  /** The expressions both translators render alike: names, numbers,
      strings, arithmetic, unary operators, subscripts, lists and tuples. */
  predicate Shared(e: Expr)
    decreases e, 1
  {
    match e
    case Name(_) => true
    case Num(_) => true
    case Str(_) => true
    case BinOp(l, _, r) => Shared(l) && Shared(r)
    case UnaryOp(_, x) => Shared(x)
    case Subscript(v, i) => Shared(v) && Shared(i)
    case List(es) => SharedAll(es)
    case Tuple(es) => SharedAll(es)
    case _ => false
  }

  predicate SharedAll(es: seq<Expr>)
    decreases es, 0
  {
    |es| == 0 || (Shared(es[0]) && SharedAll(es[1..]))
  }

  /** On the shared expressions the state-machine translator is the flat
      one: the same text, or the same error. */
  lemma {:induction false} SharedAgree(e: Expr)
    requires Shared(e)
    ensures S.CompileExpr(map[], "", e) == F.Expr(e)
    decreases e, 1
  {
    match e
    case Name(id) => NameAgree(map[], id);
    case Num(_) =>
    case Str(_) =>
    case BinOp(l, _, r) =>
      SharedAgree(l);
      SharedAgree(r);
    case UnaryOp(_, x) => SharedAgree(x);
    case Subscript(v, i) =>
      SharedAgree(v);
      SharedAgree(i);
    case List(es) => SharedAllAgree(es);
    case Tuple(es) => SharedAllAgree(es);
  }

  lemma {:induction false} SharedAllAgree(es: seq<Expr>)
    requires SharedAll(es)
    ensures S.CompileExprs(map[], "", es) == F.Exprs(es)
    decreases es, 0
  {
    if |es| > 0 {
      SharedAgree(es[0]);
      SharedAllAgree(es[1..]);
    }
  }

  /** With nothing bound, a call whose callee is not an attribute goes
      through `apply` on `this`, or becomes `console.log` for `print`. */
  lemma StateCallText(func: Expr, args: seq<Expr>)
    requires !func.Attribute?
    requires S.CompileExpr(map[], "", func).Ok? && S.CompileExprs(map[], "", args).Ok?
    ensures var f, a := S.CompileExpr(map[], "", func).value, S.CompileExprs(map[], "", args).value;
      S.CompileExpr(map[], "", Call(func, args))
      == Ok(if f == "print" then "console.log(" + Join(", ", a) + ");" else f + ".apply(this, [" + Join(", ", a) + "])")
  {
    var f := S.CompileExpr(map[], "", func).value;
    var none: S.Env := map[];
    assert f !in none;
    assert f + ".apply(" + "this" + ", [" == f + ".apply(this, [";
  }

  /** A call on shared parts: both translators fail together; `print`
      becomes the same `console.log` line, closed by `;` in the later
      translator; any other callee is called directly by the flat
      translator and through `apply` on `this` by the state-machine one,
      with the same argument texts. */
  lemma CallAgree(func: Expr, args: seq<Expr>)
    requires Shared(func) && SharedAll(args)
    ensures S.CompileExpr(map[], "", Call(func, args)).Ok? <==> F.Expr(Call(func, args)).Ok?
    ensures F.Expr(Call(func, args)).Ok? ==>
      var f, a := F.Expr(func).value, F.Exprs(args).value;
      && (f == "print" ==> S.CompileExpr(map[], "", Call(func, args)) == Ok(F.Expr(Call(func, args)).value + ";"))
      && (f != "print" ==> F.Expr(Call(func, args)) == Ok(f + "(" + Join(", ", a) + ")")
                           && S.CompileExpr(map[], "", Call(func, args)) == Ok(f + ".apply(this, [" + Join(", ", a) + "])"))
  {
    SharedAgree(func);
    SharedAllAgree(args);
    if F.Expr(func).Ok? && F.Exprs(args).Ok? {
      var a := F.Exprs(args).value;
      StateCallText(func, args);
      assert "console.log(" + Join(", ", a) + ")" + ";" == "console.log(" + Join(", ", a) + ");";
    }
  }

  /** A function the flat translator does not rename opens with the same
      line in both translators, on the same receiver. */
  lemma FunctionHeadsAgree(env: S.Env, reg: Client.Registry, d: nat, ctx: string, yp: Option<YieldPoint>,
                           cfg: F.Config, fname: string, params: seq<string>, body: seq<Stmt>)
    requires S.CompileStmt(env, reg, d, ctx, yp, FunctionDef(fname, params, body)).Ok?
    requires F.Body(cfg, "this", body).Ok?
    requires F.FunctionName(cfg, fname) == fname
    ensures S.CompileStmt(env, reg, d, ctx, yp, FunctionDef(fname, params, body)).value.frag.Many?
    ensures var ls := S.CompileStmt(env, reg, d, ctx, yp, FunctionDef(fname, params, body)).value.frag.lines;
      && |ls| > 0
      && F.Stmt(cfg, S.Receiver(ctx), FunctionDef(fname, params, body)).Ok?
      && Render(ls[0]) == F.Stmt(cfg, S.Receiver(ctx), FunctionDef(fname, params, body)).value.lines[0]
  {
    LabelTheory.FunctionShape(env, reg, d, ctx, yp, FunctionDef(fname, params, body));
    F.FunctionRename(cfg, S.Receiver(ctx), fname, params, body);
  }

  /** A class that is a scope for neither translator opens with the same
      line in both: stored under its own name on the same receiver, with
      an empty parameter list. */
  lemma ClassHeadsAgree(env: S.Env, reg: Client.Registry, d: nat, ctx: string, yp: Option<YieldPoint>,
                        cfg: F.Config, cname: string, bases: seq<Expr>, body: seq<Stmt>)
    requires S.CompileStmt(env, reg, d, ctx, yp, ClassDef(cname, bases, body)).Ok?
    requires F.Stmt(cfg, S.Receiver(ctx), ClassDef(cname, bases, body)).Ok?
    requires cname !in cfg.scopes
    requires !(|bases| == 1 && bases[0].Attribute? && bases[0].attr in reg)
    ensures S.CompileStmt(env, reg, d, ctx, yp, ClassDef(cname, bases, body)).value.frag.Many?
    ensures var ls := S.CompileStmt(env, reg, d, ctx, yp, ClassDef(cname, bases, body)).value.frag.lines;
      && |ls| > 0
      && Render(ls[0]) == F.Stmt(cfg, S.Receiver(ctx), ClassDef(cname, bases, body)).value.lines[0]
      && Render(ls[0]) == S.Receiver(ctx) + "." + cname + " = function " + cname + "() {"
  {
    var s := ClassDef(cname, bases, body);
    LabelTheory.ClassShape(env, reg, d, ctx, yp, s);
    F.ClassPrototype(cfg, S.Receiver(ctx), cname, bases, body);
    assert Join(", ", []) == "";
  }
}
