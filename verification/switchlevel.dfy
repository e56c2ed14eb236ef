/** Where the `case` lines of a dispatcher sit. The translator indents the
    contents of every block it opens (an `if` or `else` branch, a `try` or
    `catch`, an `except` body, a class constructor) two spaces further than
    the line that opens it, so a statement's `case` lines that sit at the
    statement's own indentation are the ones written directly in the
    enclosing `switch`, where JavaScript allows them. */
module SwitchLevel {
  import opened Wrappers
  import opened Syntax
  import opened Lines
  import opened YieldPoints
  import opened StateCompiler
  import opened LabelTheory
  import Client

  /** Every `case` line of dispatcher `d` is written at indentation `p`. */
  predicate CasesAt(ls: seq<Line>, d: nat, p: nat)
  {
    forall i :: 0 <= i < |ls| ==> ls[i].body.Case? && ls[i].body.tag == d ==> ls[i].pad == p
  }

  lemma AppendAt(a: seq<Line>, b: seq<Line>, d: nat, p: nat)
    requires CasesAt(a, d, p) && CasesAt(b, d, p)
    ensures CasesAt(a + b, d, p)
  {
    forall i | 0 <= i < |a + b|
      ensures (a + b)[i].body.Case? && (a + b)[i].body.tag == d ==> (a + b)[i].pad == p
    {
      if i < |a| {
        assert (a + b)[i] == a[i];
      } else {
        assert (a + b)[i] == b[i - |a|];
      }
    }
  }

  /** Lines without a label of dispatcher `d` put none anywhere. */
  lemma {:induction false} NoCasesAt(ls: seq<Line>, d: nat, p: nat)
    requires Cases(ls, d) == multiset{}
    ensures CasesAt(ls, d, p)
  {
    if |ls| > 0 {
      var head := match ls[0].body
        case Case(t, n) => if t == d then multiset{n} else multiset{}
        case _ => multiset{};
      assert Cases(ls, d) == head + Cases(ls[1..], d);
      assert head == multiset{};
      NoCasesAt(ls[1..], d, p);
      forall i | 0 < i < |ls| ensures ls[i].body.Case? && ls[i].body.tag == d ==> ls[i].pad == p {
        assert ls[i] == ls[1..][i - 1];
      }
    }
  }

  /** Indenting a fragment by `k` moves its `case` lines from 0 to `k`. */
  lemma IndentAt(f: Fragment<Line>, k: nat, d: nat)
    requires CasesAt(FragLines(f), d, 0)
    ensures CasesAt(FragLines(IndentFrag(f, k)), d, k)
  {
    match f
    case One(s) =>
      assert FragLines(IndentFrag(f, k)) == [Plain(Text.Spaces(k) + s)];
    case Many(ls) =>
      assert FragLines(f) == ls;
      assert FragLines(IndentFrag(f, k)) == IndentLines(ls, k);
  }

  /** A suspension's one `case` line closes it, at the statement's level;
      the guard around the suspension holds no `case` line. */
  lemma SuspensionAt(d: nat, n: nat, t: string, handler: Option<nat>)
    ensures CasesAt(Suspension(d, n, t, handler), d, 0)
  {
    var body := SuspendLines(d, n, t);
    var g := GuardedSuspend(d, n, t, handler);
    assert forall i :: 0 <= i < |body| ==> !body[i].body.Case?;
    if handler.Some? {
      var inner := IndentLines(body, 2);
      assert forall i :: 0 <= i < |inner| ==> !inner[i].body.Case?;
      var rest := [Plain("} catch ($exception) {"), Line(2, Jump(d, handler.value, "")), Plain("}")];
      assert g == [Plain("try {")] + inner + rest;
      AppendAt([Plain("try {")], inner, d, 0);
      AppendAt([Plain("try {")] + inner, rest, d, 0);
    }
    AppendAt(g, [Line(0, Case(d, n))], d, 0);
  }

  /** A statement that hands out no label, or any statement outside
      every function, shows no `case` line at all. */
  lemma {:induction false} QuietAt(env: Env, reg: Client.Registry, d: nat, ctx: string,
                                   yp: Option<YieldPoint>, s: Stmt, p: nat)
    requires CompileStmt(env, reg, d, ctx, yp, s).Ok? && (!Allocates(s) || yp.None?)
    ensures CasesAt(FragLines(CompileStmt(env, reg, d, ctx, yp, s).value.frag), d, p)
  {
    StmtLabels(env, reg, d, ctx, yp, s);
    var ls := FragLines(CompileStmt(env, reg, d, ctx, yp, s).value.frag);
    EmptyRange(ls, d, Count(yp), Visible(s), {});
    NoCasesAt(ls, d, p);
  }

  lemma YieldedAssignAt(env: Env, d: nat, ctx: string, yp: Option<YieldPoint>, targets: seq<Target>, v: Option<Expr>)
    requires CompileAssign(env, d, ctx, ctx, yp, targets, Yielded(v)).Ok?
    ensures CasesAt(CompileAssign(env, d, ctx, ctx, yp, targets, Yielded(v)).value.lines, d, 0)
  {
    AssignShape(env, d, ctx, ctx, yp, targets, Yielded(v));
    TargetText(env, ctx, ctx, targets);
    var y := CompileYield(env, d, ctx, yp, v, None).value;
    SuspensionAt(d, yp.value.count + 1, CompileExpr(env, ctx, v.value).value, None);
    var tail := [Plain("var $assign = $ctx.send;")] + TargetLines(env, ctx, ctx, targets).value;
    assert CasesAt(tail, d, 0);
    AppendAt(y.lines, tail, d, 0);
    assert y.lines + tail == y.lines + [Plain("var $assign = $ctx.send;")] + TargetLines(env, ctx, ctx, targets).value;
  }

  /** A statement whose labels are visible writes each of its `case` lines
      at its own indentation, directly in the enclosing `switch`. */
  lemma {:induction false} StmtAt(env: Env, reg: Client.Registry, d: nat, ctx: string,
                                  yp: Option<YieldPoint>, s: Stmt)
    requires CompileStmt(env, reg, d, ctx, yp, s).Ok? && Visible(s)
    ensures CasesAt(FragLines(CompileStmt(env, reg, d, ctx, yp, s).value.frag), d, 0)
    decreases s, 2
  {
    var em := CompileStmt(env, reg, d, ctx, yp, s).value;
    match s
    case YieldStmt(v) =>
      assert CompileStmt(env, reg, d, ctx, yp, s) == CompileSimpleStmt(env, d, ctx, yp, s);
      YieldLabels(env, d, ctx, yp, v, None);
      SuspensionAt(d, yp.value.count + 1, CompileExpr(env, ctx, v.value).value, None);
      assert FragLines(em.frag) == CompileYield(env, d, ctx, yp, v, None).value.lines;
    case Assign(targets, rhs) =>
      if rhs.Yielded? {
        assert CompileStmt(env, reg, d, ctx, yp, s) == CompileSimpleStmt(env, d, ctx, yp, s);
        YieldedAssignAt(env, d, ctx, yp, targets, rhs.yielded);
        assert FragLines(em.frag) == CompileAssign(env, d, ctx, ctx, yp, targets, rhs).value.lines;
      } else {
        SimpleFlags(s);
        QuietAt(env, reg, d, ctx, yp, s, 0);
      }
    case While(_, _, _) =>
      LoopFlags(s);
      WhileAt(env, reg, d, ctx, yp, s);
    case For(_, _, _, _) =>
      LoopFlags(s);
      ForAt(env, reg, d, ctx, yp, s);
    case Try(_, _) =>
      TryAt(env, reg, d, ctx, yp, s);
    case If(_, _, _) =>
      IfFlags(s);
      IfShape(env, reg, d, ctx, yp, s);
      QuietAt(env, reg, d, ctx, yp, s, 0);
    case ClassDef(_, _, _) =>
      ClassFlags(s);
      ClassShape(env, reg, d, ctx, yp, s);
      QuietAt(env, reg, d, ctx, yp, s, 0);
    case _ =>
      SimpleFlags(s);
      QuietAt(env, reg, d, ctx, yp, s, 0);
  }

  /** The statements of a visible block, indented by `pad`, write their
      `case` lines at `pad`. */
  lemma {:induction false} BlockAt(env: Env, reg: Client.Registry, d: nat, ctx: string,
                                   yp: Option<YieldPoint>, ss: seq<Stmt>, pad: nat)
    requires CompileBlock(env, reg, d, ctx, yp, ss, pad).Ok? && AllVisible(ss)
    ensures CasesAt(CompileBlock(env, reg, d, ctx, yp, ss, pad).value.lines, d, pad)
    decreases ss, 0
  {
    if |ss| > 0 {
      SeqFlags(ss);
      var e := CompileStmt(env, reg, d, ctx, yp, ss[0]).value;
      StmtAt(env, reg, d, ctx, yp, ss[0]);
      IndentAt(e.frag, pad, d);
      BlockAt(env, reg, d, ctx, e.yp, ss[1..], pad);
      AppendAt(FragLines(IndentFrag(e.frag, pad)), CompileBlock(env, reg, d, ctx, e.yp, ss[1..], pad).value.lines, d, pad);
    }
  }

  lemma LoopEndsAt(d: nat, loop: nat, brk: nat, test: string, step: string)
    ensures CasesAt(WhileHead(d, loop, brk, test), d, 0)
    ensures CasesAt(ForHead(d, loop, brk, step), d, 0)
    ensures CasesAt(LoopTail(d, loop, brk), d, 0)
    ensures CasesAt(TryJoin(d, loop, brk), d, 0)
  {
  }

  lemma {:induction false} WhileAt(env: Env, reg: Client.Registry, d: nat, ctx: string,
                                   yp: Option<YieldPoint>, s: Stmt)
    requires s.While? && CompileStmt(env, reg, d, ctx, yp, s).Ok? && AllVisible(s.body)
    ensures CasesAt(FragLines(CompileStmt(env, reg, d, ctx, yp, s).value.frag), d, 0)
    decreases s, 1
  {
    WhileShape(env, reg, d, ctx, yp, s);
    var c0 := yp.value.count;
    var t := CompileExpr(env, ctx, s.test).value;
    var b := CompileBlock(env, reg, d, "$ctx.local", Some(YieldPoint(c0 + 2)), s.body, 0).value;
    BlockAt(env, reg, d, "$ctx.local", Some(YieldPoint(c0 + 2)), s.body, 0);
    LoopEndsAt(d, c0 + 1, c0 + 2, t, "");
    AppendAt(WhileHead(d, c0 + 1, c0 + 2, t), b.lines, d, 0);
    AppendAt(WhileHead(d, c0 + 1, c0 + 2, t) + b.lines, LoopTail(d, c0 + 1, c0 + 2), d, 0);
    assert FragLines(CompileStmt(env, reg, d, ctx, yp, s).value.frag) == WhileLines(d, c0 + 1, c0 + 2, t, b.lines);
  }

  lemma {:induction false} ForAt(env: Env, reg: Client.Registry, d: nat, ctx: string,
                                 yp: Option<YieldPoint>, s: Stmt)
    requires s.For? && CompileStmt(env, reg, d, ctx, yp, s).Ok? && AllVisible(s.body)
    ensures CasesAt(FragLines(CompileStmt(env, reg, d, ctx, yp, s).value.frag), d, 0)
    decreases s, 1
  {
    ForShape(env, reg, d, ctx, yp, s);
    var c0 := yp.value.count;
    var y2 := Some(YieldPoint(c0 + 2));
    var a := CompileAssign(env, d, ctx, "$ctx.local", y2, [Single(Name("iter"))], Computed(s.iter)).value;
    AssignShape(env, d, ctx, "$ctx.local", y2, [Single(Name("iter"))], Computed(s.iter));
    TargetText(env, ctx, "$ctx.local", [Single(Name("iter"))]);
    assert forall i :: 0 <= i < |a.lines| ==> !a.lines[i].body.Case?;
    var b := CompileBlock(env, reg, d, "$ctx.local", a.yp, s.body, 0).value;
    BlockAt(env, reg, d, "$ctx.local", a.yp, s.body, 0);
    var step := ForStep(env, ctx, CompileExpr(env, ctx, s.loopVar).value);
    LoopEndsAt(d, c0 + 1, c0 + 2, "", step);
    AppendAt(a.lines, ForHead(d, c0 + 1, c0 + 2, step), d, 0);
    AppendAt(a.lines + ForHead(d, c0 + 1, c0 + 2, step), b.lines, d, 0);
    AppendAt(a.lines + ForHead(d, c0 + 1, c0 + 2, step) + b.lines, LoopTail(d, c0 + 1, c0 + 2), d, 0);
    assert FragLines(CompileStmt(env, reg, d, ctx, yp, s).value.frag)
      == ForLines(d, c0 + 1, c0 + 2, a.lines, step, b.lines);
  }

  /** A guarded body writes only the `case` lines of its bare yields, each
      after its guard; any other statement is one formatted line. */
  lemma {:induction false} TryBodyAt(env: Env, reg: Client.Registry, d: nat, ctx: string,
                                     yp: Option<YieldPoint>, ss: seq<Stmt>, handler: nat)
    requires CompileTryBody(env, reg, d, ctx, yp, ss, handler).Ok?
    ensures CasesAt(CompileTryBody(env, reg, d, ctx, yp, ss, handler).value.lines, d, 0)
    decreases ss
  {
    if |ss| > 0 {
      var first := CompileGuarded(env, reg, d, ctx, yp, ss[0], handler).value;
      if ss[0].YieldStmt? {
        assert CompileGuarded(env, reg, d, ctx, yp, ss[0], handler)
          == CompileYield(env, d, ctx, yp, ss[0].result, Some(handler));
        SuspensionAt(d, yp.value.count + 1, CompileExpr(env, ctx, ss[0].result.value).value, Some(handler));
      } else {
        var e := CompileStmt(env, reg, d, ctx, yp, ss[0]).value;
        assert first.lines == WrapInTry(d, e.frag, handler);
      }
      TryBodyAt(env, reg, d, ctx, first.yp, ss[1..], handler);
      AppendAt(first.lines, CompileTryBody(env, reg, d, ctx, first.yp, ss[1..], handler).value.lines, d, 0);
    }
  }

  /** Handlers show no `case` line: their bodies hand out no label. */
  lemma {:induction false} HandlersAt(env: Env, reg: Client.Registry, d: nat, ctx: string,
                                      yp: Option<YieldPoint>, hs: seq<Handler>)
    requires CompileHandlers(env, reg, d, ctx, yp, hs).Ok?
    ensures CasesAt(CompileHandlers(env, reg, d, ctx, yp, hs).value.lines, d, 0)
    decreases hs
  {
    if |hs| > 0 {
      var b := CompileBlock(env, reg, d, ctx, yp, hs[0].body, 2).value;
      BlockLabels(env, reg, d, ctx, yp, hs[0].body, 2);
      EmptyRange(b.lines, d, Count(yp), AllVisible(hs[0].body), {});
      NoCasesAt(b.lines, d, 0);
      var first := CompileHandler(env, reg, d, ctx, yp, hs[0]).value;
      var tail := [Line(2, Text("__exception__ = undefined")), Plain("}")];
      AppendAt([Plain(HandlerHead(hs[0].typeRepr))], b.lines, d, 0);
      AppendAt([Plain(HandlerHead(hs[0].typeRepr))] + b.lines, tail, d, 0);
      assert first.lines == HandlerLines(HandlerHead(hs[0].typeRepr), b.lines);
      HandlersAt(env, reg, d, ctx, first.yp, hs[1..]);
      AppendAt(first.lines, CompileHandlers(env, reg, d, ctx, first.yp, hs[1..]).value.lines, d, 0);
    }
  }

  lemma {:induction false} TryAt(env: Env, reg: Client.Registry, d: nat, ctx: string,
                                 yp: Option<YieldPoint>, s: Stmt)
    requires s.Try? && CompileStmt(env, reg, d, ctx, yp, s).Ok?
    ensures CasesAt(FragLines(CompileStmt(env, reg, d, ctx, yp, s).value.frag), d, 0)
    decreases s, 1
  {
    TryShape(env, reg, d, ctx, yp, s);
    var c0 := yp.value.count;
    var b := CompileTryBody(env, reg, d, ctx, Some(YieldPoint(c0 + 2)), s.body, c0 + 1).value;
    TryBodyAt(env, reg, d, ctx, Some(YieldPoint(c0 + 2)), s.body, c0 + 1);
    var h := CompileHandlers(env, reg, d, ctx, b.yp, s.handlers).value;
    HandlersAt(env, reg, d, ctx, b.yp, s.handlers);
    LoopEndsAt(d, c0 + 1, c0 + 2, "", "");
    AppendAt(b.lines, TryJoin(d, c0 + 1, c0 + 2), d, 0);
    AppendAt(b.lines + TryJoin(d, c0 + 1, c0 + 2), h.lines, d, 0);
    AppendAt(b.lines + TryJoin(d, c0 + 1, c0 + 2) + h.lines, [Line(0, Case(d, c0 + 2))], d, 0);
    assert FragLines(CompileStmt(env, reg, d, ctx, yp, s).value.frag)
      == TryLines(d, c0 + 1, c0 + 2, b.lines, h.lines);
  }
}
