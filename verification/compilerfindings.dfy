/** Where the state-machine translator of avalon/compiler/compiler.py, as
    written, departs from what its own structure evidently intends. Each
    group pairs the as-written behaviour on a concrete input with the
    property the corrected definition (the one the rest of the model
    uses) satisfies. */
module CompilerFindings {
  import opened Wrappers
  import opened Syntax
  import opened Lines
  import opened YieldPoints
  import opened StateCompiler
  import opened LabelTheory
  import opened SwitchLevel
  import Client

  // ---------------------------------------------------------------------
  // Loops and `try` outside a function

  /** Outside a function the intended guard reports a syntax error; the
      guard as written lets the statement through and fails on the
      missing yield point instead. */
  lemma GuardRaisesWrongError(what: string)
    ensures LoopGuard(None, what) == Err(SyntaxErr(what + " not inside a function block"))
    ensures LoopGuardAsWritten(None, what).Err? && !LoopGuardAsWritten(None, what).error.SyntaxErr?
  {
  }

  // ---------------------------------------------------------------------
  // The `for` step

  /** The loop variable `x` of a `for` directly in a function body is read
      there as `$ctx.local.x`; the step as written assigns
      `$ctx.local.$ctx.local.x` instead, which the body never reads. */
  lemma ForTargetPrefixedTwice(env: Env, x: string)
    requires x !in env && x != "None" && x != "True" && x != "False"
    ensures var t := CompileExpr(env, "$ctx.local", Name(x));
      && t == Ok("$ctx.local" + "." + x)
      && ForStepAsWritten(t.value) == StepLine("$ctx.local." + t.value, "$ctx.local.iter")
      && "$ctx.local." + t.value != t.value
  {
  }

  /** Binding the iterator inside a function body: the value goes to
      `$assign`, then to `iter` under the receiver context, without `var`. */
  lemma IterBinding(env: Env, d: nat, y: Option<YieldPoint>, e: Expr)
    requires CompileAssign(env, d, "$ctx.local", "$ctx.local", y, [Single(Name("iter"))], Computed(e)).Ok?
    ensures var iter := NameText(env, "$ctx.local", "iter");
      CompileAssign(env, d, "$ctx.local", "$ctx.local", y, [Single(Name("iter"))], Computed(e)).value.lines
      == [Plain("var $assign = " + CompileExpr(env, "$ctx.local", e).value + ";"), Plain(iter + " = " + "$assign" + ";")]
  {
    var ts := [Single(Name("iter"))];
    var iter := NameText(env, "$ctx.local", "iter");
    assert ts[1..] == [];
    assert TargetLines(env, "$ctx.local", "$ctx.local", ts[1..]) == Ok([]);
    assert Bind("$ctx.local", iter, "$assign") == [Plain(iter + " = " + "$assign" + ";")];
    assert TargetLines(env, "$ctx.local", "$ctx.local", ts) == Ok(Bind("$ctx.local", iter, "$assign") + []);
  }

  /** With `iter` bound in the module (a top-level `def iter`, say), the
      iterable is stored under the module's name, while the step as
      written reads `$ctx.local.iter`, which nothing assigned: `next()`
      on it throws, the catch jumps to `break`, and the body never runs.
      The corrected step reads the name the iterable was stored under. */
  lemma IterShadowed(env: Env, d: nat, y: Option<YieldPoint>, e: Expr, target: string)
    requires "iter" in env
    requires CompileAssign(env, d, "$ctx.local", "$ctx.local", y, [Single(Name("iter"))], Computed(e)).Ok?
    ensures var stored := Lookup(env, "iter").value;
      && CompileAssign(env, d, "$ctx.local", "$ctx.local", y, [Single(Name("iter"))], Computed(e)).value.lines[1]
         == Plain(stored + " = " + "$assign" + ";")
      && stored != "$ctx.local.iter"
      && ForStepAsWritten(target) == StepLine("$ctx.local." + target, "$ctx.local.iter")
      && ForStep(env, "$ctx.local", target) == StepLine(target, stored)
  {
    IterBinding(env, d, y, e);
  }

  /** The corrected step assigns the loop variable under exactly the name
      the loop body reads it by, and advances the iterator under exactly
      the name the loop's first lines bound it to. */
  lemma ForStepAssignsLoopVariable(env: Env, reg: Client.Registry, d: nat, yp: Option<YieldPoint>, s: Stmt)
    requires s.For? && CompileStmt(env, reg, d, "$ctx.local", yp, s).Ok?
    ensures CompileExpr(env, "$ctx.local", s.loopVar).Ok?
    ensures var lines := FragLines(CompileStmt(env, reg, d, "$ctx.local", yp, s).value.frag);
      var iter := NameText(env, "$ctx.local", "iter");
      && |lines| > 3
      && lines[1] == Plain(iter + " = " + "$assign" + ";")
      && lines[3] == Plain(StepLine(CompileExpr(env, "$ctx.local", s.loopVar).value, iter))
  {
    ForShape(env, reg, d, "$ctx.local", yp, s);
    var y2 := Some(YieldPoint(yp.value.count + 2));
    IterBinding(env, d, y2, s.iter);
  }

  // ---------------------------------------------------------------------
  // Event listeners of a scope

  /** Iterating the events dict yields the handler names, and `format(*key)`
      spreads a name's characters over event, selector and handler: a
      two-letter handler name fails, `save` becomes event `s` on selector
      `a` calling `v`. The corrected listeners follow the recorded tag. */
  lemma EventKeysSpread()
    ensures var tag := Client.EventTag("click", ".item");
      && EventLinesAsWritten([("go", tag)]) == Err(IndexErr("Replacement index out of range"))
      && EventLinesAsWritten([("save", tag)]) == Ok([Plain(EventBlock("s", "a", "v"))])
      && EventLines([("save", tag)]) == [Plain(EventBlock("click", ".item", "save"))]
  {
    var tag := Client.EventTag("click", ".item");
    assert [("go", tag)][1..] == [];
    assert [("save", tag)][1..] == [];
    assert ["save"[0]] == "s" && ["save"[1]] == "a" && ["save"[2]] == "v";
    var one := Plain(EventBlock("s", "a", "v"));
    assert EventLinesAsWritten([("save", tag)][1..]) == Ok([]);
    assert [one] + [] == [one];
  }

  /** Every corrected listener comes from a member the `event` decorator
      tagged: the listener at position `i` calls the `i`-th tagged member
      for its own event and selector. */
  lemma ListenersFromMembers(classdict: seq<(string, Client.Func)>, i: nat)
    requires i < |Client.EventsOf(classdict)|
    ensures var ev := Client.EventsOf(classdict);
      && EventLines(ev)[i] == Plain(EventBlock(ev[i].1.eventName, ev[i].1.selector, ev[i].0))
      && exists f :: (ev[i].0, f) in classdict && f.event == Some(ev[i].1)
  {
    var ev := Client.EventsOf(classdict);
    assert ev[i] in ev;
    Client.EventsOfExact(classdict, ev[i].0, ev[i].1);
  }

  /** And every member the decorator tagged gets its listener. */
  lemma MemberGetsListener(classdict: seq<(string, Client.Func)>, k: string, f: Client.Func)
    requires (k, f) in classdict && f.event.Some?
    ensures Plain(EventBlock(f.event.value.eventName, f.event.value.selector, k))
            in EventLines(Client.EventsOf(classdict))
  {
    var ev := Client.EventsOf(classdict);
    Client.EventsOfExact(classdict, k, f.event.value);
    var i :| 0 <= i < |ev| && ev[i] == (k, f.event.value);
    assert EventLines(ev)[i] == Plain(EventBlock(f.event.value.eventName, f.event.value.selector, k));
  }

  // ---------------------------------------------------------------------
  // `yield` inside `try`

  /** A `yield` statement's output is its suspension's lines. */
  lemma YieldStmtOutput(env: Env, reg: Client.Registry, d: nat, ctx: string, yp: Option<YieldPoint>, v: Expr)
    requires CompileYield(env, d, ctx, yp, Some(v), None).Ok?
    ensures var b := CompileYield(env, d, ctx, yp, Some(v), None).value;
      CompileStmt(env, reg, d, ctx, yp, YieldStmt(Some(v))) == Ok(Emitted(Many(b.lines), b.yp))
  {
  }

  lemma WrappedOutput(env: Env, reg: Client.Registry, d: nat, ctx: string, yp: Option<YieldPoint>, c: Stmt, h: nat)
    requires CompileStmt(env, reg, d, ctx, yp, c).Ok?
    ensures var e := CompileStmt(env, reg, d, ctx, yp, c).value;
      TryStmtAsWritten(env, reg, d, ctx, yp, c, h) == Ok(Block(WrapInTry(d, e.frag, h), e.yp))
  {
  }

  /** The as-written lowering of `yield v` in a try body hands out the
      next label but shows the dispatcher no `case` line at all. */
  lemma WrappedYield(env: Env, reg: Client.Registry, d: nat, ctx: string, n: nat, h: nat, v: Expr)
    requires CompileExpr(env, ctx, v).Ok?
    ensures var r := TryStmtAsWritten(env, reg, d, ctx, Some(YieldPoint(n)), YieldStmt(Some(v)), h);
      r.Ok? && r.value.yp == Some(YieldPoint(n + 1)) && Cases(r.value.lines, d) == multiset{}
  {
    var yp := Some(YieldPoint(n));
    var c := YieldStmt(Some(v));
    var b := CompileYield(env, d, ctx, yp, Some(v), None).value;
    assert b.yp == Some(YieldPoint(n + 1));
    YieldStmtOutput(env, reg, d, ctx, yp, v);
    WrappedOutput(env, reg, d, ctx, yp, c, h);
    WrapLabels(d, Many(b.lines), h);
  }

  /** A statement list never holds a bare `Yield` node, so the source
      wraps a `yield` statement of a try body whole: the label the
      suspension hands out is never defined as a case of the dispatcher,
      and resuming there ends the function. The corrected lowering keeps
      the label's case line outside the guard. */
  lemma YieldInTryLosesLabel(env: Env, reg: Client.Registry, d: nat, ctx: string, n: nat, h: nat, v: Expr)
    requires CompileExpr(env, ctx, v).Ok?
    ensures var c := YieldStmt(Some(v));
      var r := TryStmtAsWritten(env, reg, d, ctx, Some(YieldPoint(n)), c, h);
      var g := CompileGuarded(env, reg, d, ctx, Some(YieldPoint(n)), c, h);
      && r.Ok? && g.Ok?
      && r.value.yp == Some(YieldPoint(n + 1)) && g.value.yp == r.value.yp
      && n + 1 !in Cases(r.value.lines, d)
      && Cases(g.value.lines, d) == multiset{n + 1}
  {
    var c := YieldStmt(Some(v));
    var yp := Some(YieldPoint(n));
    WrappedYield(env, reg, d, ctx, n, h, v);
    YieldLabels(env, d, ctx, yp, Some(v), Some(h));
    assert CompileGuarded(env, reg, d, ctx, yp, c, h) == CompileYield(env, d, ctx, yp, Some(v), Some(h));
    assert Range(n, n + 1) == multiset{n + 1} by {
      assert Range(n, n) == multiset{};
    }
  }

  // ---------------------------------------------------------------------
  // The name a class is stored under

  /** A class with a base that is not a registered scope is stored, as
      written, under the base's attribute name, while its prototype link
      is set on its own name. */
  lemma PlainBaseRenamed()
    ensures var bases := [Attribute(Name("animals"), "Animal", true)];
      ClassNameAsWritten("Dog", bases, false) == "Animal" && ClassName("Dog", bases, false) == "Dog"
  {
  }

  /** The corrected translation stores a class with a plain base under
      the same name its prototype link is then set on. */
  lemma ClassStoredWhereLinked(env: Env, reg: Client.Registry, d: nat, ctx: string,
                               yp: Option<YieldPoint>, s: Stmt)
    requires s.ClassDef? && |s.bases| == 1 && s.bases[0].Attribute? && s.bases[0].attr !in reg
    requires CompileStmt(env, reg, d, ctx, yp, s).Ok?
    ensures CompileExpr(env, ctx, s.bases[0]).Ok?
    ensures var ls := FragLines(CompileStmt(env, reg, d, ctx, yp, s).value.frag);
      var name := Receiver(ctx) + "." + s.cname;
      && |ls| >= 2
      && ls[0] == Plain(name + " = function " + s.cname + "(" + ") {")
      && ls[|ls| - 1] == Plain(name + ".prototype = new " + CompileExpr(env, ctx, s.bases[0]).value + "();")
  {
    ClassShape(env, reg, d, ctx, yp, s);
    var b := CompileBlock(env, reg, d, ctx, yp, s.body, 2).value;
    var proto := ClassProto(env, ctx, Receiver(ctx), s.cname, s.bases, false).value;
    assert Text.Join(", ", []) == "";
    var pre := Receiver(ctx) + "." + s.cname + " = function " + s.cname + "(";
    assert pre + "" == pre;
    assert |proto| == 1;
    var tail := ClassTail(Receiver(ctx), s.cname, [], [], proto);
    assert tail[|tail| - 1] == proto[0];
    var ls := ClassLines(Receiver(ctx), s.cname, s.cname, [], b.lines, [], proto);
    assert ls == [ls[0]] + b.lines + tail;
    assert ls[|ls| - 1] == tail[|tail| - 1];
    assert ls[0] == Plain(pre + Text.Join(", ", []) + ") {");
  }

  // ---------------------------------------------------------------------
  // Labels nested in an `if` block

  /** `visit_If` as written: inside a function too, both branches are
      compiled into the `if (...) { ... }` block, whatever they hold. */
  function CompileIfAsWritten(env: Env, reg: Client.Registry, depth: nat, ctx: string,
                              yp: Option<YieldPoint>, s: Stmt): Res<Emitted>
    requires s.If?
  {
    var t :- CompileExpr(env, ctx, s.cond);
    var b :- CompileBlock(env, reg, depth, ctx, yp, s.body, 2);
    if |s.orelse| == 0 then Ok(Emitted(Many(IfLines(t, b.lines, None)), b.yp))
    else
      var e :- CompileBlock(env, reg, depth, ctx, b.yp, s.orelse, 2);
      Ok(Emitted(Many(IfLines(t, b.lines, Some(e.lines))), e.yp))
  }

  /** A bare yield's lines end with the `case` line of its label. */
  lemma YieldCaseLine(env: Env, reg: Client.Registry, d: nat, ctx: string, yp: Option<YieldPoint>, v: Expr)
    requires CompileStmt(env, reg, d, ctx, yp, YieldStmt(Some(v))).Ok?
    ensures CompileStmt(env, reg, d, ctx, yp, YieldStmt(Some(v))).value.frag.Many?
    ensures var ls := CompileStmt(env, reg, d, ctx, yp, YieldStmt(Some(v))).value.frag.lines;
      yp.Some? && |ls| == 5 && ls[4] == Line(0, Case(d, yp.value.count + 1))
  {
    assert CompileStmt(env, reg, d, ctx, yp, YieldStmt(Some(v)))
      == CompileSimpleStmt(env, d, ctx, yp, YieldStmt(Some(v)));
  }

  /** A one-statement block is that statement's lines, indented. */
  lemma OneStmtBlock(env: Env, reg: Client.Registry, d: nat, ctx: string, yp: Option<YieldPoint>, st: Stmt, pad: nat)
    requires CompileBlock(env, reg, d, ctx, yp, [st], pad).Ok?
    ensures CompileStmt(env, reg, d, ctx, yp, st).Ok?
    ensures CompileBlock(env, reg, d, ctx, yp, [st], pad).value.lines
      == FragLines(IndentFrag(CompileStmt(env, reg, d, ctx, yp, st).value.frag, pad))
  {
    var e := CompileStmt(env, reg, d, ctx, yp, st).value;
    assert [st][1..] == [];
    assert CompileBlock(env, reg, d, ctx, e.yp, [], pad) == Ok(Block([], e.yp));
  }

  /** An `if` without `else`, as written: the test line, the body's
      block, and the closing brace. */
  lemma IfAsWrittenLines(env: Env, reg: Client.Registry, d: nat, ctx: string, yp: Option<YieldPoint>,
                         c: Expr, body: seq<Stmt>)
    requires CompileIfAsWritten(env, reg, d, ctx, yp, If(c, body, [])).Ok?
    ensures CompileExpr(env, ctx, c).Ok? && CompileBlock(env, reg, d, ctx, yp, body, 2).Ok?
    ensures FragLines(CompileIfAsWritten(env, reg, d, ctx, yp, If(c, body, [])).value.frag)
      == IfLines(CompileExpr(env, ctx, c).value, CompileBlock(env, reg, d, ctx, yp, body, 2).value.lines, None)
  {
  }

  /** Five lines ending in a `case` line, indented into an `if` block,
      put that `case` line two spaces in. */
  lemma CaseInsideIf(t: string, yl: seq<Line>, d: nat, n: nat)
    requires |yl| == 5 && yl[4] == Line(0, Case(d, n))
    ensures var ls := IfLines(t, IndentLines(yl, 2), None);
      |ls| == 7 && ls[0] == Plain("if (" + t + ") {") && ls[6] == Plain("}")
      && ls[5] == Line(2, Case(d, n)) && !CasesAt(ls, d, 0)
  {
    var ls := IfLines(t, IndentLines(yl, 2), None);
    assert ls[5] == Shift(yl[4], 2);
  }

  /** As written, a yield in an `if` branch inside a function writes its
      `case` line inside the branch's `{ ... }` block, two spaces in from
      the statement, where JavaScript does not allow a `case`. */
  lemma YieldInIfNestsCase(env: Env, reg: Client.Registry, d: nat, ctx: string, yp: Option<YieldPoint>,
                           c: Expr, v: Expr)
    requires CompileIfAsWritten(env, reg, d, ctx, yp, If(c, [YieldStmt(Some(v))], [])).Ok?
    ensures var ls := FragLines(CompileIfAsWritten(env, reg, d, ctx, yp, If(c, [YieldStmt(Some(v))], [])).value.frag);
      yp.Some? && |ls| == 7
      && ls[0] == Plain("if (" + CompileExpr(env, ctx, c).value + ") {") && ls[6] == Plain("}")
      && ls[5] == Line(2, Case(d, yp.value.count + 1))
      && !CasesAt(ls, d, 0)
  {
    var st := YieldStmt(Some(v));
    IfAsWrittenLines(env, reg, d, ctx, yp, c, [st]);
    OneStmtBlock(env, reg, d, ctx, yp, st, 2);
    YieldCaseLine(env, reg, d, ctx, yp, v);
    var yl := CompileStmt(env, reg, d, ctx, yp, st).value.frag.lines;
    CaseInsideIf(CompileExpr(env, ctx, c).value, yl, d, yp.value.count + 1);
  }

  /** Corrected: inside a function, an `if` whose branches would hand out
      a label is refused, and so are such an `except` body and such a
      class body; every state of a dispatcher is then a `case` of its
      `switch` (`Dispatcher.FunctionDispatcher`). */
  lemma NestedLabelsRefused(env: Env, reg: Client.Registry, d: nat, ctx: string, yp: Option<YieldPoint>,
                            s: Stmt, h: Handler)
    ensures s.If? && yp.Some? && (AllocatesAny(s.body) || AllocatesAny(s.orelse)) ==>
      CompileStmt(env, reg, d, ctx, yp, s) == Err(NestedLabels("if block"))
    ensures AllocatesAny(h.body) ==> CompileHandler(env, reg, d, ctx, yp, h) == Err(NestedLabels("except block"))
    ensures s.ClassDef? && yp.Some? && AllocatesAny(s.body)
            && |s.bases| <= 1 && (|s.bases| == 1 ==> s.bases[0].Attribute?) ==>
      CompileStmt(env, reg, d, ctx, yp, s) == Err(NestedLabels("class body"))
  {
  }
}
