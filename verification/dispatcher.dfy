/** What the state-machine lowering of avalon/compiler/compiler.py
    guarantees as a whole: the dispatcher of every translated function
    defines each of its states once, jumps only to states it defines, and
    the module level carries no state at all; plus the inputs the
    translator refuses, with the error it raises. */
module Dispatcher {
  import opened Wrappers
  import opened Syntax
  import opened Lines
  import opened YieldPoints
  import opened StateCompiler
  import opened LabelTheory
  import opened SwitchLevel
  import Client

  /** The lines of a function's dispatcher `d` define the states `0 .. n`,
      each exactly once and each directly in the `switch` (at the six
      spaces of its `case 0:`), and every jump or suspension goes to one
      of them. */
  predicate WellFormedDispatcher(ls: seq<Line>, d: nat, n: nat)
  {
    && Cases(ls, d) == multiset{0} + Range(0, n)
    && CasesAt(ls, d, 6)
    && forall t :: t in Targets(ls, d) ==> t in Cases(ls, d)
  }

  /** The entry state's header defines state 0 and nothing else. */
  lemma {:induction false} HeaderLabels(fctx: string, name: string, params: seq<string>, tag: nat)
    ensures Cases(FunctionHeader(fctx, name, params, tag), tag) == multiset{0}
    ensures Targets(FunctionHeader(fctx, name, params, tag), tag) == {}
  {
    var h := FunctionHeader(fctx, name, params, tag);
    var texts := h[..5];
    assert h == texts + [Line(6, Case(tag, 0))];
    TextOnly(texts, tag);
    SingleLine(Line(6, Case(tag, 0)), tag);
    CasesAppend(texts, [Line(6, Case(tag, 0))], tag);
    TargetsAppend(texts, [Line(6, Case(tag, 0))], tag);
  }

  /** The closing lines (`default: return;` and the braces) carry no state. */
  lemma FooterLabels(tag: nat)
    ensures var f := seq(5, i requires 0 <= i => Plain(FooterText(i)));
      Cases(f, tag) == multiset{} && Targets(f, tag) == {}
  {
    var f := seq(5, i requires 0 <= i => Plain(FooterText(i)));
    TextOnly(f, tag);
  }

  /** A function whose body is labelled exactly over `1 .. n` gives a
      well-formed dispatcher. */
  lemma {:induction false} FunctionLinesDispatcher(fctx: string, name: string, params: seq<string>,
                                                   tag: nat, body: seq<Line>, n: nat)
    requires Labelled(body, tag, 0, n, true, {})
    requires CasesAt(body, tag, 6)
    ensures WellFormedDispatcher(FunctionLines(fctx, name, params, tag, body), tag, n)
  {
    var h := FunctionHeader(fctx, name, params, tag);
    var f := seq(5, i requires 0 <= i => Plain(FooterText(i)));
    var ls := FunctionLines(fctx, name, params, tag, body);
    HeaderLabels(fctx, name, params, tag);
    FooterLabels(tag);
    Append3(h, body, f, tag);
    assert CasesAt(h, tag, 6) && CasesAt(f, tag, 6);
    AppendAt(h, body, tag, 6);
    AppendAt(h + body, f, tag, 6);
    assert Cases(ls, tag) == multiset{0} + Range(0, n);
    assert Targets(ls, tag) == Targets(body, tag);
    forall t | t in Targets(ls, tag) ensures t in Cases(ls, tag) {
      assert 0 < t <= n;
      RangeCount(0, n, t);
    }
  }

  /** The dispatcher theorem: translating a function whose body keeps every
      label visible yields a `switch` whose cases are the entry state 0 and
      the labels `1 .. n` the function's own yield point handed out, each
      once and each directly in the `switch`, that jumps only to cases it
      defines, and the enclosing yield point is passed on untouched. */
  lemma FunctionDispatcher(env: Env, reg: Client.Registry, d: nat, ctx: string,
                           yp: Option<YieldPoint>, s: Stmt)
    requires s.FunctionDef? && CompileStmt(env, reg, d, ctx, yp, s).Ok?
    requires AllVisible(s.body)
    ensures CompileBlock(env, reg, d + 1, "$ctx.local", Some(Fresh()), s.body, 6).Ok?
    ensures var b := CompileBlock(env, reg, d + 1, "$ctx.local", Some(Fresh()), s.body, 6).value;
      var ls := FunctionLines(Receiver(ctx), s.fname, s.params, d + 1, b.lines);
      && CompileStmt(env, reg, d, ctx, yp, s).value == Emitted(Many(ls), yp)
      && b.yp.Some?
      && WellFormedDispatcher(ls, d + 1, b.yp.value.count)
  {
    FunctionShape(env, reg, d, ctx, yp, s);
    BlockLabels(env, reg, d + 1, "$ctx.local", Some(Fresh()), s.body, 6);
    BlockAt(env, reg, d + 1, "$ctx.local", Some(Fresh()), s.body, 6);
    var b := CompileBlock(env, reg, d + 1, "$ctx.local", Some(Fresh()), s.body, 6).value;
    FunctionLinesDispatcher(Receiver(ctx), s.fname, s.params, d + 1, b.lines, b.yp.value.count);
  }

  /** Outside every function there is no dispatcher: a translated module
      defines no top-level state and jumps to none. */
  lemma ModuleHasNoStates(env: Env, reg: Client.Registry, m: Module)
    requires CompileBlock(env, reg, 0, "", None, m.stmts, 0).Ok?
    ensures var b := CompileBlock(env, reg, 0, "", None, m.stmts, 0).value;
      && b.yp.None?
      && Cases(b.lines, 0) == multiset{}
      && Targets(b.lines, 0) == {}
  {
    BlockLabels(env, reg, 0, "", None, m.stmts, 0);
    var b := CompileBlock(env, reg, 0, "", None, m.stmts, 0).value;
    EmptyRange(b.lines, 0, 0, AllVisible(m.stmts), {});
  }

  // ---------------------------------------------------------------------
  // Refused inputs

  /** `while`/`for` with an `else` branch is not supported. */
  lemma LoopElseRefused(env: Env, reg: Client.Registry, d: nat, ctx: string,
                        yp: Option<YieldPoint>, s: Stmt)
    requires (s.While? || s.For?) && |s.orelse| > 0
    ensures CompileStmt(env, reg, d, ctx, yp, s).Err?
    ensures CompileStmt(env, reg, d, ctx, yp, s).error.NotImplementedErr?
  {
  }

  /** A loop or `try` outside every function has no yield point to take
      its labels from: it is a syntax error. */
  lemma LoweredOutsideFunction(env: Env, reg: Client.Registry, d: nat, ctx: string, s: Stmt)
    requires s.While? || s.For? || s.Try?
    requires !s.Try? ==> |s.orelse| == 0
    ensures CompileStmt(env, reg, d, ctx, None, s).Err?
    ensures CompileStmt(env, reg, d, ctx, None, s).error.SyntaxErr?
  {
  }

  /** So is a `yield` outside every function. */
  lemma YieldOutsideFunction(env: Env, reg: Client.Registry, d: nat, ctx: string, s: Stmt)
    requires s.YieldStmt? || (s.Assign? && s.rhs.Yielded?)
    ensures CompileStmt(env, reg, d, ctx, None, s)
      == Err(SyntaxErr("Yield not inside a function block"))
  {
  }

  /** `break`, `continue` and every statement kind without a visitor are
      not implemented. */
  lemma UnsupportedStatement(env: Env, reg: Client.Registry, d: nat, ctx: string,
                             yp: Option<YieldPoint>, s: Stmt)
    requires s.Break? || s.Continue? || s.OtherStmt?
    ensures CompileStmt(env, reg, d, ctx, yp, s).Err?
    ensures CompileStmt(env, reg, d, ctx, yp, s).error.NotImplementedErr?
  {
  }

  /** A class with two or more bases is refused. */
  lemma MultipleInheritanceRefused(env: Env, reg: Client.Registry, d: nat, ctx: string,
                                   yp: Option<YieldPoint>, s: Stmt)
    requires s.ClassDef? && |s.bases| > 1
    ensures CompileStmt(env, reg, d, ctx, yp, s)
      == Err(NotImplementedErr("Multiple inheritance not supported"))
  {
  }
}
