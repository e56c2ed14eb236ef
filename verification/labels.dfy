/** The dispatcher invariant of the state-machine lowering: inside one
    function body, the `case` labels emitted at that function's depth are
    exactly the labels its yield point handed out, each once, and every
    jump or suspension targets one of them. */
module LabelTheory {
  import opened Wrappers
  import opened Syntax
  import opened Lines
  import opened YieldPoints
  import opened StateCompiler
  import Client

  /** The labels handed out so far (none outside a function). */
  function Count(yp: Option<YieldPoint>): nat
  {
    if yp.Some? then yp.value.count else 0
  }

  /** Lines whose dispatcher-`d` labels lie in `lo+1 .. hi` (all of them,
      each once, when `exact`), whose targets lie there too apart from the
      labels in `extra`, and whose labelled lines belong to depth `d` or
      deeper. */
  predicate Labelled(ls: seq<Line>, d: nat, lo: nat, hi: nat, exact: bool, extra: set<nat>)
  {
    lo <= hi
    && Cases(ls, d) <= Range(lo, hi)
    && (exact ==> Cases(ls, d) == Range(lo, hi))
    && Within(Targets(ls, d) - extra, lo, hi)
    && TagsFrom(ls, d)
  }

  // ---------------------------------------------------------------------
  // Which statements allocate labels, and where they stay visible

  /** Every label the statement hands out appears as a `case` line of the
      enclosing dispatcher: a try body statement other than a bare yield
      is formatted into one guarded line, which hides any label in it.
      Inside a function, the branches of an `if`, an `except` body and a
      class body hand out no label (the translator refuses one there);
      outside every function nothing does. */
  predicate Visible(s: Stmt)
    decreases s, 1
  {
    match s
    case While(_, b, _) => AllVisible(b)
    case For(_, _, b, _) => AllVisible(b)
    case Try(b, _) => TryBodyVisible(b)
    case _ => true
  }

  predicate AllVisible(ss: seq<Stmt>)
    decreases ss, 0
  {
    |ss| == 0 || (Visible(ss[0]) && AllVisible(ss[1..]))
  }

  predicate TryBodyVisible(ss: seq<Stmt>)
    decreases ss, 0
  {
    |ss| == 0 || ((ss[0].YieldStmt? || !Allocates(ss[0])) && TryBodyVisible(ss[1..]))
  }

  /** How a compound statement's flags follow from its parts. */
  lemma LoopFlags(s: Stmt)
    requires s.While? || s.For?
    ensures Visible(s) == AllVisible(s.body) && Allocates(s)
  {
  }

  lemma IfFlags(s: Stmt)
    requires s.If?
    ensures Visible(s)
    ensures Allocates(s) == (AllocatesAny(s.body) || AllocatesAny(s.orelse))
  {
  }

  lemma TryFlags(s: Stmt)
    requires s.Try?
    ensures Visible(s) == TryBodyVisible(s.body) && Allocates(s)
  {
  }

  lemma ClassFlags(s: Stmt)
    requires s.ClassDef?
    ensures Visible(s) && Allocates(s) == AllocatesAny(s.body)
  {
  }

  /** Simple statements and function definitions are always visible;
      only a yield, or an assignment of one, hands out a label. */
  lemma SimpleFlags(s: Stmt)
    requires !(s.While? || s.For? || s.If? || s.Try? || s.ClassDef?)
    ensures Visible(s)
    ensures Allocates(s) == (s.YieldStmt? || (s.Assign? && s.rhs.Yielded?))
  {
  }

  lemma SeqFlags(ss: seq<Stmt>)
    ensures |ss| == 0 ==> AllVisible(ss) && !AllocatesAny(ss) && TryBodyVisible(ss)
    ensures |ss| > 0 ==> AllVisible(ss) == (Visible(ss[0]) && AllVisible(ss[1..]))
                         && AllocatesAny(ss) == (Allocates(ss[0]) || AllocatesAny(ss[1..]))
                         && TryBodyVisible(ss) == ((ss[0].YieldStmt? || !Allocates(ss[0])) && TryBodyVisible(ss[1..]))
  {
  }

  // ---------------------------------------------------------------------
  // Building blocks

  lemma SingleLine(l: Line, d: nat)
    ensures Cases([l], d) == if l.body.Case? && l.body.tag == d then multiset{l.body.state} else multiset{}
    ensures Targets([l], d) == if (l.body.Jump? || l.body.SetState?) && l.body.tag == d then {l.body.target} else {}
    ensures TagsFrom([l], d) <==> (l.body.Text? || l.body.tag >= d)
  {
    assert [l][1..] == [];
  }

  lemma TagsFromAppend(a: seq<Line>, b: seq<Line>, d: nat)
    ensures TagsFrom(a + b, d) <==> TagsFrom(a, d) && TagsFrom(b, d)
  {
    if TagsFrom(a, d) && TagsFrom(b, d) {
      forall i | 0 <= i < |a + b| && !(a + b)[i].body.Text? ensures (a + b)[i].body.tag >= d {
        if i >= |a| {
          assert (a + b)[i] == b[i - |a|];
        }
      }
    }
    if TagsFrom(a + b, d) {
      forall i | 0 <= i < |b| && !b[i].body.Text? ensures b[i].body.tag >= d {
        assert (a + b)[|a| + i] == b[i];
      }
      forall i | 0 <= i < |a| && !a[i].body.Text? ensures a[i].body.tag >= d {
        assert (a + b)[i] == a[i];
      }
    }
  }

  /** Cases, targets and depth tags of a concatenation. */
  lemma Append(a: seq<Line>, b: seq<Line>, d: nat)
    ensures Cases(a + b, d) == Cases(a, d) + Cases(b, d)
    ensures Targets(a + b, d) == Targets(a, d) + Targets(b, d)
    ensures TagsFrom(a + b, d) <==> TagsFrom(a, d) && TagsFrom(b, d)
  {
    CasesAppend(a, b, d);
    TargetsAppend(a, b, d);
    TagsFromAppend(a, b, d);
  }

  /** Two labelled stretches whose ranges meet make one. */
  lemma Compose(a: seq<Line>, b: seq<Line>, d: nat, lo: nat, mid: nat, hi: nat,
                ea: bool, eb: bool, extra: set<nat>)
    requires Labelled(a, d, lo, mid, ea, extra)
    requires Labelled(b, d, mid, hi, eb, extra)
    ensures Labelled(a + b, d, lo, hi, ea && eb, extra)
  {
    ComposeCases(a, b, d, lo, mid, hi, ea, eb);
    ComposeTargets(a, b, d, lo, mid, hi, extra);
    TagsFromAppend(a, b, d);
  }

  lemma ComposeCases(a: seq<Line>, b: seq<Line>, d: nat, lo: nat, mid: nat, hi: nat, ea: bool, eb: bool)
    requires lo <= mid <= hi
    requires Cases(a, d) <= Range(lo, mid) && (ea ==> Cases(a, d) == Range(lo, mid))
    requires Cases(b, d) <= Range(mid, hi) && (eb ==> Cases(b, d) == Range(mid, hi))
    ensures Cases(a + b, d) <= Range(lo, hi)
    ensures ea && eb ==> Cases(a + b, d) == Range(lo, hi)
  {
    CasesAppend(a, b, d);
    RangeSplit(lo, mid, hi);
    MultisetSum(Cases(a, d), Range(lo, mid), Cases(b, d), Range(mid, hi));
  }

  lemma ComposeTargets(a: seq<Line>, b: seq<Line>, d: nat, lo: nat, mid: nat, hi: nat, extra: set<nat>)
    requires lo <= mid <= hi
    requires Within(Targets(a, d) - extra, lo, mid)
    requires Within(Targets(b, d) - extra, mid, hi)
    ensures Within(Targets(a + b, d) - extra, lo, hi)
  {
    TargetsAppend(a, b, d);
    assert Targets(a + b, d) - extra == (Targets(a, d) - extra) + (Targets(b, d) - extra);
  }

  lemma MultisetSum(x: multiset<nat>, xs: multiset<nat>, y: multiset<nat>, ys: multiset<nat>)
    requires x <= xs && y <= ys
    ensures x + y <= xs + ys
  {
    forall n ensures (x + y)[n] <= (xs + ys)[n] {
      assert x[n] <= xs[n] && y[n] <= ys[n];
    }
  }

  lemma Weaken(ls: seq<Line>, d: nat, lo: nat, hi: nat, exact: bool, extra: set<nat>, more: set<nat>)
    requires Labelled(ls, d, lo, hi, exact, extra)
    requires extra <= more
    ensures Labelled(ls, d, lo, hi, exact, more)
  {
    assert Targets(ls, d) - more <= Targets(ls, d) - extra;
  }

  lemma {:induction false} Plain1(s: string, d: nat, c: nat, extra: set<nat>)
    ensures Labelled([Plain(s)], d, c, c, true, extra)
  {
    SingleLine(Plain(s), d);
  }

  lemma {:induction false} TextLabelled(ls: seq<Line>, d: nat, c: nat, extra: set<nat>)
    requires forall i :: 0 <= i < |ls| ==> ls[i].body.Text?
    ensures Labelled(ls, d, c, c, true, extra)
  {
    TextOnly(ls, d);
  }

  /** Indenting a statement's output changes none of its labels. */
  lemma {:induction false} IndentFragLabels(f: Fragment<Line>, k: nat, d: nat, lo: nat, hi: nat,
                                            exact: bool, extra: set<nat>)
    requires Labelled(FragLines(f), d, lo, hi, exact, extra)
    ensures Labelled(FragLines(IndentFrag(f, k)), d, lo, hi, exact, extra)
  {
    match f
    case One(s) =>
      SingleLine(Plain(s), d);
      SingleLine(Plain(Text.Spaces(k) + s), d);
      assert FragLines(f) == [Plain(s)];
      assert FragLines(IndentFrag(f, k)) == [Plain(Text.Spaces(k) + s)];
    case Many(ls) =>
      IndentLabels(ls, k, d);
      assert FragLines(f) == ls;
      assert FragLines(IndentFrag(f, k)) == IndentLines(ls, k);
  }

  /** Lines labelled entirely at deeper depths show nothing at depth `d`. */
  lemma {:induction false} Deeper(ls: seq<Line>, d: nat)
    requires TagsFrom(ls, d + 1)
    ensures Cases(ls, d) == multiset{} && Targets(ls, d) == {} && TagsFrom(ls, d)
    decreases |ls|
  {
    if |ls| > 0 {
      assert TagsFrom(ls[1..], d + 1) by {
        forall i | 0 <= i < |ls[1..]| && !ls[1..][i].body.Text? ensures ls[1..][i].body.tag >= d + 1 {
          assert ls[1..][i] == ls[i + 1];
        }
      }
      Deeper(ls[1..], d);
    }
  }

  /** A statement's output keeps the dispatcher invariant for the labels
      it handed out; with `alloc` false it hands out none. */
  predicate EmitOk(em: Emitted, d: nat, yp: Option<YieldPoint>, exact: bool, alloc: bool)
  {
    em.yp.Some? == yp.Some? && Count(yp) <= Count(em.yp)
    && Labelled(FragLines(em.frag), d, Count(yp), Count(em.yp), exact, {})
    && (!alloc ==> em.yp == yp)
  }

  predicate BlockOk(b: Block, d: nat, yp: Option<YieldPoint>, exact: bool, alloc: bool, extra: set<nat>)
  {
    b.yp.Some? == yp.Some? && Count(yp) <= Count(b.yp)
    && Labelled(b.lines, d, Count(yp), Count(b.yp), exact, extra)
    && (!alloc ==> b.yp == yp)
  }

  // ---------------------------------------------------------------------
  // Suspension and assignment

  lemma {:induction false} SuspendLabels(d: nat, n: nat, t: string)
    ensures Cases(SuspendLines(d, n, t), d) == multiset{}
    ensures Targets(SuspendLines(d, n, t), d) == {n}
    ensures TagsFrom(SuspendLines(d, n, t), d)
  {
    var a, b, c, e := Plain("var $tmp = " + t + ";"), Line(0, SetState(d, n)), Plain("$ctx.yield = $tmp;"), Plain("return $ctx;");
    assert SuspendLines(d, n, t) == [a] + ([b] + ([c] + [e]));
    SingleLine(a, d); SingleLine(b, d); SingleLine(c, d); SingleLine(e, d);
    Append([c], [e], d);
    Append([b], [c] + [e], d);
    Append([a], [b] + ([c] + [e]), d);
  }

  lemma {:induction false} GuardLabels(d: nat, n: nat, t: string, h: nat)
    ensures var g := [Plain("try {")] + IndentLines(SuspendLines(d, n, t), 2)
                     + [Plain("} catch ($exception) {"), Line(2, Jump(d, h, "")), Plain("}")];
      Cases(g, d) == multiset{} && Targets(g, d) == {n, h} && TagsFrom(g, d)
  {
    var body := SuspendLines(d, n, t);
    SuspendLabels(d, n, t);
    var open, c1, jmp, c2 := Plain("try {"), Plain("} catch ($exception) {"), Line(2, Jump(d, h, "")), Plain("}");
    IndentLabels(body, 2, d);
    SingleLine(open, d); SingleLine(c1, d); SingleLine(jmp, d); SingleLine(c2, d);
    assert [c1, jmp, c2] == [c1] + ([jmp] + [c2]);
    Append([jmp], [c2], d);
    Append([c1], [jmp] + [c2], d);
    Append([open], IndentLines(body, 2), d);
    Append([open] + IndentLines(body, 2), [c1, jmp, c2], d);
  }

  lemma {:induction false} GuardedSuspendLabels(d: nat, n: nat, t: string, handler: Option<nat>)
    ensures Cases(GuardedSuspend(d, n, t, handler), d) == multiset{}
    ensures Targets(GuardedSuspend(d, n, t, handler), d) == {n} + (if handler.Some? then {handler.value} else {})
    ensures TagsFrom(GuardedSuspend(d, n, t, handler), d)
  {
    if handler.Some? {
      GuardLabels(d, n, t, handler.value);
    } else {
      SuspendLabels(d, n, t);
    }
  }

  /** Unlabelled lines that target `n` (and `extra`), then the `case n:`
      line: exactly the label `n`. */
  lemma CaseAfterCases(g: seq<Line>, d: nat, n: nat)
    requires n >= 1 && Cases(g, d) == multiset{}
    ensures Cases(g + [Line(0, Case(d, n))], d) == Range(n - 1, n)
  {
    CasesAppend(g, [Line(0, Case(d, n))], d);
    SingleLine(Line(0, Case(d, n)), d);
    assert Range(n - 1, n - 1) == multiset{};
  }

  lemma CaseAfterTargets(g: seq<Line>, d: nat, n: nat, extra: set<nat>)
    requires n >= 1 && Targets(g, d) == {n} + extra
    ensures Targets(g + [Line(0, Case(d, n))], d) == {n} + extra
    ensures Within(Targets(g + [Line(0, Case(d, n))], d) - extra, n - 1, n)
  {
    TargetsAppend(g, [Line(0, Case(d, n))], d);
    SingleLine(Line(0, Case(d, n)), d);
    assert Targets(g + [Line(0, Case(d, n))], d) - extra <= {n};
  }

  lemma CaseAfterTags(g: seq<Line>, d: nat, n: nat)
    requires TagsFrom(g, d)
    ensures TagsFrom(g + [Line(0, Case(d, n))], d)
  {
    TagsFromAppend(g, [Line(0, Case(d, n))], d);
    SingleLine(Line(0, Case(d, n)), d);
  }

  /** A suspension defines its label right after the `return` and sets it
      as the next state; when guarded, the catch also jumps to the
      handler. */
  lemma {:induction false} SuspensionLabels(d: nat, n: nat, t: string, handler: Option<nat>)
    requires n >= 1
    ensures Labelled(Suspension(d, n, t, handler), d, n - 1, n, true, if handler.Some? then {handler.value} else {})
    ensures Targets(Suspension(d, n, t, handler), d) == {n} + (if handler.Some? then {handler.value} else {})
  {
    var g := GuardedSuspend(d, n, t, handler);
    GuardedSuspendLabels(d, n, t, handler);
    CaseAfterCases(g, d, n);
    CaseAfterTargets(g, d, n, if handler.Some? then {handler.value} else {});
    CaseAfterTags(g, d, n);
  }

  /** A yield hands out exactly one label, the next one. */
  lemma {:induction false} YieldLabels(env: Env, d: nat, ctx: string, yp: Option<YieldPoint>,
                                       v: Option<Expr>, handler: Option<nat>)
    requires CompileYield(env, d, ctx, yp, v, handler).Ok?
    ensures yp.Some?
    ensures var b := CompileYield(env, d, ctx, yp, v, handler).value;
      b.yp == Some(YieldPoint(yp.value.count + 1))
      && BlockOk(b, d, yp, true, true, if handler.Some? then {handler.value} else {})
      && Targets(b.lines, d) == {yp.value.count + 1} + (if handler.Some? then {handler.value} else {})
  {
    var n := yp.value.count + 1;
    SuspensionLabels(d, n, CompileExpr(env, ctx, v.value).value, handler);
  }

  lemma {:induction false} BindText(decl: string, target: string, source: string)
    ensures forall i :: 0 <= i < |Bind(decl, target, source)| ==> Bind(decl, target, source)[i].body.Text?
  {
  }

  lemma {:induction false} UnpackText(env: Env, ctx: string, decl: string, parts: seq<Expr>, i: nat)
    requires UnpackLines(env, ctx, decl, parts, i).Ok?
    ensures var ls := UnpackLines(env, ctx, decl, parts, i).value;
      forall j :: 0 <= j < |ls| ==> ls[j].body.Text?
    decreases |parts| - i
  {
    if i < |parts| {
      var t := CompileExpr(env, ctx, parts[i]).value;
      UnpackText(env, ctx, decl, parts, i + 1);
      BindText(decl, t, "$assign[" + Text.NatToString(i) + "]");
    }
  }

  lemma {:induction false} TargetText(env: Env, ctx: string, decl: string, targets: seq<Target>)
    requires TargetLines(env, ctx, decl, targets).Ok?
    ensures var ls := TargetLines(env, ctx, decl, targets).value;
      forall j :: 0 <= j < |ls| ==> ls[j].body.Text?
    decreases |targets|
  {
    if |targets| > 0 {
      TargetText(env, ctx, decl, targets[1..]);
      match targets[0]
      case Single(t) =>
        BindText(decl, CompileExpr(env, ctx, t).value, "$assign");
      case Unpack(parts) =>
        UnpackText(env, ctx, decl, parts, 0);
    }
  }

  /** An assignment hands out a label exactly when its value is yielded. */
  lemma AssignShape(env: Env, d: nat, ctx: string, decl: string, yp: Option<YieldPoint>,
                    targets: seq<Target>, rhs: Rhs)
    requires CompileAssign(env, d, ctx, decl, yp, targets, rhs).Ok?
    ensures TargetLines(env, ctx, decl, targets).Ok?
    ensures rhs.Computed? ==>
      CompileExpr(env, ctx, rhs.expr).Ok?
      && CompileAssign(env, d, ctx, decl, yp, targets, rhs).value
         == Block([Plain("var $assign = " + CompileExpr(env, ctx, rhs.expr).value + ";")]
                  + TargetLines(env, ctx, decl, targets).value, yp)
    ensures rhs.Yielded? ==>
      CompileYield(env, d, ctx, yp, rhs.yielded, None).Ok?
      && var y := CompileYield(env, d, ctx, yp, rhs.yielded, None).value;
         CompileAssign(env, d, ctx, decl, yp, targets, rhs).value
         == Block(y.lines + [Plain("var $assign = $ctx.send;")] + TargetLines(env, ctx, decl, targets).value, y.yp)
  {
  }

  lemma {:induction false} AssignLabels(env: Env, d: nat, ctx: string, decl: string, yp: Option<YieldPoint>,
                                        targets: seq<Target>, rhs: Rhs)
    requires CompileAssign(env, d, ctx, decl, yp, targets, rhs).Ok?
    ensures BlockOk(CompileAssign(env, d, ctx, decl, yp, targets, rhs).value, d, yp, true, rhs.Yielded?, {})
  {
    AssignShape(env, d, ctx, decl, yp, targets, rhs);
    var tl := TargetLines(env, ctx, decl, targets).value;
    TargetText(env, ctx, decl, targets);
    match rhs
    case Computed(v) =>
      var head := [Plain("var $assign = " + CompileExpr(env, ctx, v).value + ";")];
      TextLabelled(tl, d, Count(yp), {});
      Plain1(head[0].body.s, d, Count(yp), {});
      Compose(head, tl, d, Count(yp), Count(yp), Count(yp), true, true, {});
    case Yielded(v) =>
      var y := CompileYield(env, d, ctx, yp, v, None).value;
      YieldLabels(env, d, ctx, yp, v, None);
      var send := [Plain("var $assign = $ctx.send;")];
      TextLabelled(tl, d, Count(y.yp), {});
      Plain1(send[0].body.s, d, Count(y.yp), {});
      Compose(y.lines, send, d, Count(yp), Count(y.yp), Count(y.yp), true, true, {});
      Compose(y.lines + send, tl, d, Count(yp), Count(y.yp), Count(y.yp), true, true, {});
  }

  // ---------------------------------------------------------------------
  // Statements

  /** A lowering whose lines are labelled keeps the invariant. */
  lemma Emit(ls: seq<Line>, after: Option<YieldPoint>, d: nat, yp: Option<YieldPoint>, exact: bool, alloc: bool)
    requires after.Some? == yp.Some? && Count(yp) <= Count(after)
    requires Labelled(ls, d, Count(yp), Count(after), exact, {})
    requires !alloc ==> after == yp
    ensures EmitOk(Emitted(Many(ls), after), d, yp, exact, alloc)
  {
    assert FragLines(Many(ls)) == ls;
  }

  lemma Lit2(a: Line, b: Line, d: nat)
    ensures Cases([a, b], d) == Cases([a], d) + Cases([b], d)
    ensures Targets([a, b], d) == Targets([a], d) + Targets([b], d)
    ensures TagsFrom([a, b], d) <==> TagsFrom([a], d) && TagsFrom([b], d)
  {
    assert [a, b] == [a] + [b];
    Append([a], [b], d);
  }

  lemma Append3(a: seq<Line>, b: seq<Line>, c: seq<Line>, d: nat)
    ensures Cases(a + b + c, d) == Cases(a, d) + Cases(b, d) + Cases(c, d)
    ensures Targets(a + b + c, d) == Targets(a, d) + Targets(b, d) + Targets(c, d)
    ensures TagsFrom(a + b + c, d) <==> TagsFrom(a, d) && TagsFrom(b, d) && TagsFrom(c, d)
  {
    Append(a, b, d);
    Append(a + b, c, d);
  }

  lemma {:induction false} OneLabels(t: string, d: nat, c: nat)
    ensures Labelled(FragLines(One(t)), d, c, c, true, {})
  {
    assert FragLines(One(t)) == [Plain(t)];
    Plain1(t, d, c, {});
  }

  /** Lines labelled within an empty range carry no label at all. */
  lemma EmptyRange(ls: seq<Line>, d: nat, c: nat, exact: bool, extra: set<nat>)
    requires Labelled(ls, d, c, c, exact, extra)
    ensures Cases(ls, d) == multiset{} && Targets(ls, d) <= extra
  {
    var m := Cases(ls, d);
    forall x: nat ensures m[x] == 0 {
      RangeCount(c, c, x);
      assert m[x] <= Range(c, c)[x];
    }
    assert m == multiset{};
    var rest := Targets(ls, d) - extra;
    forall n | n in Targets(ls, d) ensures n in extra {
      assert n in rest ==> c < n <= c;
    }
  }

  /** A stretch that hands out no label shows none, so its labels are
      exactly the (empty) range. */
  lemma Quiet(b: Block, d: nat, yp: Option<YieldPoint>, exact: bool, alloc: bool, extra: set<nat>)
    requires BlockOk(b, d, yp, exact, alloc, extra)
    ensures BlockOk(b, d, yp, !alloc || yp.None?, alloc, extra)
  {
    if !alloc || yp.None? {
      EmptyRange(b.lines, d, Count(yp), exact, extra);
    }
  }

  /** Text lines around one line leave that line's labels. */
  lemma AroundCases(pre: seq<Line>, l: Line, post: seq<Line>, d: nat)
    requires Cases(pre, d) == multiset{} && Cases(post, d) == multiset{}
    ensures Cases(pre + [l] + post, d) == Cases([l], d)
  {
    CasesAppend(pre, [l], d);
    CasesAppend(pre + [l], post, d);
  }

  lemma AroundTargets(pre: seq<Line>, l: Line, post: seq<Line>, d: nat)
    requires Targets(pre, d) == {} && Targets(post, d) == {}
    ensures Targets(pre + [l] + post, d) == Targets([l], d)
  {
    TargetsAppend(pre, [l], d);
    TargetsAppend(pre + [l], post, d);
  }

  lemma AroundTags(pre: seq<Line>, l: Line, post: seq<Line>, d: nat)
    requires TagsFrom(pre, d) && TagsFrom(post, d)
    ensures TagsFrom(pre + [l] + post, d) == TagsFrom([l], d)
  {
    TagsFromAppend(pre, [l], d);
    TagsFromAppend(pre + [l], post, d);
  }

  lemma {:induction false} Around(pre: seq<Line>, l: Line, post: seq<Line>, d: nat)
    requires forall i :: 0 <= i < |pre| ==> pre[i].body.Text?
    requires forall i :: 0 <= i < |post| ==> post[i].body.Text?
    ensures Cases(pre + [l] + post, d) == Cases([l], d)
    ensures Targets(pre + [l] + post, d) == Targets([l], d)
    ensures TagsFrom(pre + [l] + post, d) == TagsFrom([l], d)
  {
    TextOnly(pre, d);
    TextOnly(post, d);
    AroundCases(pre, l, post, d);
    AroundTargets(pre, l, post, d);
    AroundTags(pre, l, post, d);
  }

  lemma {:induction false} WrapLabels(d: nat, f: Fragment<Line>, h: nat)
    ensures Cases(WrapInTry(d, f, h), d) == multiset{}
    ensures Targets(WrapInTry(d, f, h), d) == {h}
    ensures TagsFrom(WrapInTry(d, f, h), d)
  {
    var a, b, c, e := Plain("try { " + Lines.FragText(f) + " }"), Plain("catch($exception) {"), Line(2, Jump(d, h, "")), Plain("}");
    assert WrapInTry(d, f, h) == [a, b] + [c] + [e];
    Around([a, b], c, [e], d);
    SingleLine(c, d);
  }

  /** A block's lines reported as a statement's output. */
  lemma AsEmitted(em: Emitted, b: Block, d: nat, yp: Option<YieldPoint>, exact: bool, alloc: bool)
    requires BlockOk(b, d, yp, exact, alloc, {})
    requires em == Emitted(Many(b.lines), b.yp)
    ensures EmitOk(em, d, yp, exact, alloc)
  {
    assert FragLines(em.frag) == b.lines;
  }

  /** Two stretches compiled one after the other, the second from where
      the first left the yield point. */
  lemma Concat(bl: Block, a: Block, b: Block, d: nat, yp: Option<YieldPoint>,
               ea: bool, aa: bool, eb: bool, ab: bool, extra: set<nat>)
    requires BlockOk(a, d, yp, ea, aa, extra)
    requires BlockOk(b, d, a.yp, eb, ab, extra)
    requires bl == Block(a.lines + b.lines, b.yp)
    ensures BlockOk(bl, d, yp, ea && eb, aa || ab, extra)
  {
    Compose(a.lines, b.lines, d, Count(yp), Count(a.yp), Count(b.yp), ea, eb, extra);
  }

  lemma EmptyOk(b: Block, d: nat, yp: Option<YieldPoint>, extra: set<nat>)
    requires b == Block([], yp)
    ensures BlockOk(b, d, yp, true, false, extra)
  {
    TextLabelled([], d, Count(yp), extra);
  }

  /** Output that is one string, or the single `// pass` line, keeps the
      yield point and shows no label. */
  lemma LeafOk(em: Emitted, d: nat, yp: Option<YieldPoint>)
    requires em.yp == yp
    requires em.frag.One? || em.frag == Many([Plain("// pass")])
    ensures EmitOk(em, d, yp, true, false)
  {
    if em.frag.One? {
      OneLabels(em.frag.text, d, Count(yp));
    } else {
      Plain1("// pass", d, Count(yp), {});
      assert FragLines(em.frag) == [Plain("// pass")];
    }
  }

  /** Statements lowered to plain text hand out no label. */
  lemma {:induction false} LeafLabels(env: Env, reg: Client.Registry, d: nat, ctx: string,
                                      yp: Option<YieldPoint>, s: Stmt)
    requires s.ExprStmt? || s.Return? || s.Print? || s.AugAssign? || s.Import? || s.ImportFrom? || s.Pass?
    requires CompileStmt(env, reg, d, ctx, yp, s).Ok?
    ensures EmitOk(CompileStmt(env, reg, d, ctx, yp, s).value, d, yp, Visible(s), Allocates(s))
  {
    SimpleFlags(s);
    assert CompileStmt(env, reg, d, ctx, yp, s) == CompileSimpleStmt(env, d, ctx, yp, s);
    LeafOk(CompileStmt(env, reg, d, ctx, yp, s).value, d, yp);
  }

  lemma {:induction false} YieldStmtLabels(env: Env, reg: Client.Registry, d: nat, ctx: string,
                                           yp: Option<YieldPoint>, s: Stmt)
    requires s.YieldStmt? && CompileStmt(env, reg, d, ctx, yp, s).Ok?
    ensures EmitOk(CompileStmt(env, reg, d, ctx, yp, s).value, d, yp, Visible(s), Allocates(s))
  {
    SimpleFlags(s);
    assert CompileStmt(env, reg, d, ctx, yp, s) == CompileSimpleStmt(env, d, ctx, yp, s);
    YieldLabels(env, d, ctx, yp, s.result, None);
    AsEmitted(CompileStmt(env, reg, d, ctx, yp, s).value, CompileYield(env, d, ctx, yp, s.result, None).value,
              d, yp, true, true);
  }

  lemma {:induction false} AssignStmtLabels(env: Env, reg: Client.Registry, d: nat, ctx: string,
                                            yp: Option<YieldPoint>, s: Stmt)
    requires s.Assign? && CompileStmt(env, reg, d, ctx, yp, s).Ok?
    ensures EmitOk(CompileStmt(env, reg, d, ctx, yp, s).value, d, yp, Visible(s), Allocates(s))
  {
    SimpleFlags(s);
    assert CompileStmt(env, reg, d, ctx, yp, s) == CompileSimpleStmt(env, d, ctx, yp, s);
    AssignLabels(env, d, ctx, ctx, yp, s.targets, s.rhs);
    AsEmitted(CompileStmt(env, reg, d, ctx, yp, s).value, CompileAssign(env, d, ctx, ctx, yp, s.targets, s.rhs).value,
              d, yp, true, s.rhs.Yielded?);
  }

  /** Every statement keeps the dispatcher invariant: the labels it hands
      out are the next ones after the yield point it starts from. */
  lemma {:induction false} StmtLabels(env: Env, reg: Client.Registry, d: nat, ctx: string,
                                      yp: Option<YieldPoint>, s: Stmt)
    requires CompileStmt(env, reg, d, ctx, yp, s).Ok?
    ensures EmitOk(CompileStmt(env, reg, d, ctx, yp, s).value, d, yp, Visible(s), Allocates(s))
    decreases s, 2
  {
    match s
    case ExprStmt(_) => LeafLabels(env, reg, d, ctx, yp, s);
    case Return(_) => LeafLabels(env, reg, d, ctx, yp, s);
    case Print(_) => LeafLabels(env, reg, d, ctx, yp, s);
    case AugAssign(_, _, _) => LeafLabels(env, reg, d, ctx, yp, s);
    case Import => LeafLabels(env, reg, d, ctx, yp, s);
    case ImportFrom => LeafLabels(env, reg, d, ctx, yp, s);
    case Pass => LeafLabels(env, reg, d, ctx, yp, s);
    case YieldStmt(_) => YieldStmtLabels(env, reg, d, ctx, yp, s);
    case Assign(_, _) => AssignStmtLabels(env, reg, d, ctx, yp, s);
    case While(_, _, _) => WhileLabels(env, reg, d, ctx, yp, s);
    case For(_, _, _, _) => ForLabels(env, reg, d, ctx, yp, s);
    case If(_, _, _) => IfLabels(env, reg, d, ctx, yp, s);
    case Try(_, _) => TryLabels(env, reg, d, ctx, yp, s);
    case FunctionDef(_, _, _) => FunctionDefLabels(env, reg, d, ctx, yp, s);
    case ClassDef(_, _, _) => ClassDefLabels(env, reg, d, ctx, yp, s);
  }

  /** One statement's indented output followed by the rest of the block. */
  lemma BlockStep(bl: Block, e: Emitted, rest: Block, pad: nat, d: nat, yp: Option<YieldPoint>,
                  e1: bool, a1: bool, e2: bool, a2: bool)
    requires EmitOk(e, d, yp, e1, a1)
    requires BlockOk(rest, d, e.yp, e2, a2, {})
    requires bl == Block(FragLines(IndentFrag(e.frag, pad)) + rest.lines, rest.yp)
    ensures BlockOk(bl, d, yp, e1 && e2, a1 || a2, {})
  {
    IndentFragLabels(e.frag, pad, d, Count(yp), Count(e.yp), e1, {});
    Concat(bl, Block(FragLines(IndentFrag(e.frag, pad)), e.yp), rest, d, yp, e1, a1, e2, a2, {});
  }

  lemma {:induction false} BlockLabels(env: Env, reg: Client.Registry, d: nat, ctx: string,
                                       yp: Option<YieldPoint>, ss: seq<Stmt>, pad: nat)
    requires CompileBlock(env, reg, d, ctx, yp, ss, pad).Ok?
    ensures BlockOk(CompileBlock(env, reg, d, ctx, yp, ss, pad).value, d, yp, AllVisible(ss), AllocatesAny(ss), {})
    decreases ss, 0
  {
    if |ss| == 0 {
      SeqFlags(ss);
      EmptyOk(CompileBlock(env, reg, d, ctx, yp, ss, pad).value, d, yp, {});
    } else {
      SeqFlags(ss);
      StmtLabels(env, reg, d, ctx, yp, ss[0]);
      var e := CompileStmt(env, reg, d, ctx, yp, ss[0]).value;
      BlockLabels(env, reg, d, ctx, e.yp, ss[1..], pad);
      BlockStep(CompileBlock(env, reg, d, ctx, yp, ss, pad).value, e, CompileBlock(env, reg, d, ctx, e.yp, ss[1..], pad).value,
                pad, d, yp, Visible(ss[0]), Allocates(ss[0]), AllVisible(ss[1..]), AllocatesAny(ss[1..]));
    }
  }

  /** Lines around a labelled stretch that add the labels `lo+1 .. m`;
      the stretch may also target labels of `extra` in `lo+1 .. hi`. */
  lemma Frame(pre: seq<Line>, mid: seq<Line>, post: seq<Line>, d: nat, lo: nat, m: nat, hi: nat,
              exact: bool, extra: set<nat>)
    requires Labelled(mid, d, m, hi, exact, extra)
    requires Within(extra, lo, hi)
    requires lo <= m
    requires Cases(pre, d) + Cases(post, d) == Range(lo, m)
    requires Within(Targets(pre, d) + Targets(post, d), lo, hi)
    requires TagsFrom(pre, d) && TagsFrom(post, d)
    ensures Labelled(pre + mid + post, d, lo, hi, exact, {})
  {
    FrameCases(pre, mid, post, d, lo, m, hi, exact);
    FrameTargets(pre, mid, post, d, lo, hi, extra);
    TagsFromAppend(pre, mid, d);
    TagsFromAppend(pre + mid, post, d);
  }

  lemma FrameCases(pre: seq<Line>, mid: seq<Line>, post: seq<Line>, d: nat, lo: nat, m: nat, hi: nat, exact: bool)
    requires lo <= m <= hi
    requires Cases(mid, d) <= Range(m, hi) && (exact ==> Cases(mid, d) == Range(m, hi))
    requires Cases(pre, d) + Cases(post, d) == Range(lo, m)
    ensures Cases(pre + mid + post, d) <= Range(lo, hi)
    ensures exact ==> Cases(pre + mid + post, d) == Range(lo, hi)
  {
    CasesAppend(pre, mid, d);
    CasesAppend(pre + mid, post, d);
    RangeSplit(lo, m, hi);
    assert Cases(pre + mid + post, d) == (Cases(pre, d) + Cases(post, d)) + Cases(mid, d);
    MultisetSum(Cases(pre, d) + Cases(post, d), Range(lo, m), Cases(mid, d), Range(m, hi));
  }

  lemma FrameTargets(pre: seq<Line>, mid: seq<Line>, post: seq<Line>, d: nat, lo: nat, hi: nat, extra: set<nat>)
    requires Within(Targets(mid, d) - extra, lo, hi)
    requires Within(extra, lo, hi)
    requires Within(Targets(pre, d) + Targets(post, d), lo, hi)
    ensures Within(Targets(pre + mid + post, d), lo, hi)
  {
    TargetsAppend(pre, mid, d);
    TargetsAppend(pre + mid, post, d);
    assert Targets(pre + mid + post, d) <= (Targets(pre, d) + Targets(post, d)) + (Targets(mid, d) - extra) + extra;
  }

  lemma TwoLabels(c0: nat)
    ensures Range(c0, c0 + 2) == multiset{c0 + 1} + multiset{c0 + 2}
  {
    assert Range(c0, c0) == multiset{};
  }

  lemma {:induction false} WhileHeadLabels(d: nat, loop: nat, brk: nat, t: string)
    ensures Cases(WhileHead(d, loop, brk, t), d) == multiset{loop}
    ensures Targets(WhileHead(d, loop, brk, t), d) == {brk}
    ensures TagsFrom(WhileHead(d, loop, brk, t), d)
  {
    var pre := WhileHead(d, loop, brk, t);
    assert pre == [pre[0], pre[1]] + [pre[2], pre[3]];
    SingleLine(pre[0], d); SingleLine(pre[1], d); SingleLine(pre[2], d); SingleLine(pre[3], d);
    Lit2(pre[0], pre[1], d); Lit2(pre[2], pre[3], d);
    Append([pre[0], pre[1]], [pre[2], pre[3]], d);
  }

  lemma {:induction false} ForHeadLabels(d: nat, loop: nat, brk: nat, step: string)
    ensures Cases(ForHead(d, loop, brk, step), d) == multiset{loop}
    ensures Targets(ForHead(d, loop, brk, step), d) == {brk}
    ensures TagsFrom(ForHead(d, loop, brk, step), d)
  {
    var pre := ForHead(d, loop, brk, step);
    assert pre == [pre[0], pre[1]] + [pre[2], pre[3]] + [pre[4]];
    SingleLine(pre[0], d); SingleLine(pre[1], d); SingleLine(pre[2], d); SingleLine(pre[3], d);
    SingleLine(pre[4], d);
    Lit2(pre[0], pre[1], d); Lit2(pre[2], pre[3], d);
    Append3([pre[0], pre[1]], [pre[2], pre[3]], [pre[4]], d);
  }

  lemma {:induction false} TailLabels(d: nat, a: nat, b: nat)
    ensures Cases(LoopTail(d, a, b), d) == multiset{b} && Targets(LoopTail(d, a, b), d) == {a}
    ensures TagsFrom(LoopTail(d, a, b), d)
    ensures Cases(TryJoin(d, b, a), d) == multiset{b} && Targets(TryJoin(d, b, a), d) == {a}
    ensures TagsFrom(TryJoin(d, b, a), d)
  {
    var t := LoopTail(d, a, b);
    SingleLine(t[0], d); SingleLine(t[1], d);
    Lit2(t[0], t[1], d);
    assert TryJoin(d, b, a) == t;
  }

  /** A loop's entry and exit lines around its body: the loop hands out
      `c0+1` (loop) and `c0+2` (break) before the body's labels. */
  lemma {:induction false} LoopLabelled(pre: seq<Line>, body: seq<Line>, d: nat, c0: nat, hi: nat, exact: bool)
    requires Cases(pre, d) == multiset{c0 + 1} && Targets(pre, d) == {c0 + 2} && TagsFrom(pre, d)
    requires Labelled(body, d, c0 + 2, hi, exact, {})
    ensures Labelled(pre + body + LoopTail(d, c0 + 1, c0 + 2), d, c0, hi, exact, {})
  {
    TailLabels(d, c0 + 1, c0 + 2);
    TwoLabels(c0);
    Frame(pre, body, LoopTail(d, c0 + 1, c0 + 2), d, c0, c0 + 2, hi, exact, {});
  }

  lemma {:induction false} WhileLinesOk(d: nat, c0: nat, t: string, body: seq<Line>, hi: nat, exact: bool)
    requires Labelled(body, d, c0 + 2, hi, exact, {})
    ensures Labelled(WhileLines(d, c0 + 1, c0 + 2, t, body), d, c0, hi, exact, {})
  {
    WhileHeadLabels(d, c0 + 1, c0 + 2, t);
    LoopLabelled(WhileHead(d, c0 + 1, c0 + 2, t), body, d, c0, hi, exact);
  }

  lemma {:induction false} ForLinesOk(d: nat, c0: nat, step: string, init: seq<Line>, body: seq<Line>,
                                      hi: nat, exact: bool)
    requires Labelled(init, d, c0 + 2, c0 + 2, true, {})
    requires Labelled(body, d, c0 + 2, hi, exact, {})
    ensures Labelled(ForLines(d, c0 + 1, c0 + 2, init, step, body), d, c0, hi, exact, {})
  {
    var head := ForHead(d, c0 + 1, c0 + 2, step);
    EmptyRange(init, d, c0 + 2, true, {});
    ForHeadLabels(d, c0 + 1, c0 + 2, step);
    Append(init, head, d);
    LoopLabelled(init + head, body, d, c0, hi, exact);
  }

  /** What a successful `while` lowering is made of. */
  lemma WhileShape(env: Env, reg: Client.Registry, d: nat, ctx: string, yp: Option<YieldPoint>, s: Stmt)
    requires s.While? && CompileStmt(env, reg, d, ctx, yp, s).Ok?
    ensures yp.Some?
    ensures CompileExpr(env, ctx, s.test).Ok?
    ensures CompileBlock(env, reg, d, "$ctx.local", Some(YieldPoint(yp.value.count + 2)), s.body, 0).Ok?
    ensures var c0 := yp.value.count;
      var b := CompileBlock(env, reg, d, "$ctx.local", Some(YieldPoint(c0 + 2)), s.body, 0).value;
      CompileStmt(env, reg, d, ctx, yp, s).value
      == Emitted(Many(WhileLines(d, c0 + 1, c0 + 2, CompileExpr(env, ctx, s.test).value, b.lines)), b.yp)
  {
  }

  /** A loop hands out `loop` and `break`, then its body's labels. */
  lemma WhileOk(em: Emitted, b: Block, t: string, d: nat, yp: Option<YieldPoint>, exact: bool, alloc: bool)
    requires yp.Some?
    requires BlockOk(b, d, Some(YieldPoint(yp.value.count + 2)), exact, alloc, {})
    requires em == Emitted(Many(WhileLines(d, yp.value.count + 1, yp.value.count + 2, t, b.lines)), b.yp)
    ensures EmitOk(em, d, yp, exact, true)
  {
    var c0 := yp.value.count;
    WhileLinesOk(d, c0, t, b.lines, Count(b.yp), exact);
    Emit(WhileLines(d, c0 + 1, c0 + 2, t, b.lines), b.yp, d, yp, exact, true);
  }

  lemma {:induction false} WhileLabels(env: Env, reg: Client.Registry, d: nat, ctx: string,
                                       yp: Option<YieldPoint>, s: Stmt)
    requires s.While? && CompileStmt(env, reg, d, ctx, yp, s).Ok?
    ensures EmitOk(CompileStmt(env, reg, d, ctx, yp, s).value, d, yp, Visible(s), Allocates(s))
    decreases s, 1
  {
    LoopFlags(s);
    WhileShape(env, reg, d, ctx, yp, s);
    var y2 := Some(YieldPoint(yp.value.count + 2));
    BlockLabels(env, reg, d, "$ctx.local", y2, s.body, 0);
    WhileOk(CompileStmt(env, reg, d, ctx, yp, s).value, CompileBlock(env, reg, d, "$ctx.local", y2, s.body, 0).value,
            CompileExpr(env, ctx, s.test).value, d, yp, AllVisible(s.body), AllocatesAny(s.body));
  }

  /** What a successful `for` lowering is made of. */
  lemma ForShape(env: Env, reg: Client.Registry, d: nat, ctx: string, yp: Option<YieldPoint>, s: Stmt)
    requires s.For? && CompileStmt(env, reg, d, ctx, yp, s).Ok?
    ensures yp.Some?
    ensures var y2 := Some(YieldPoint(yp.value.count + 2));
      CompileAssign(env, d, ctx, "$ctx.local", y2, [Single(Name("iter"))], Computed(s.iter)).Ok?
      && CompileExpr(env, ctx, s.loopVar).Ok?
      && var a := CompileAssign(env, d, ctx, "$ctx.local", y2, [Single(Name("iter"))], Computed(s.iter)).value;
         CompileBlock(env, reg, d, "$ctx.local", a.yp, s.body, 0).Ok?
         && var b := CompileBlock(env, reg, d, "$ctx.local", a.yp, s.body, 0).value;
            var step := ForStep(env, ctx, CompileExpr(env, ctx, s.loopVar).value);
            CompileStmt(env, reg, d, ctx, yp, s).value
            == Emitted(Many(ForLines(d, yp.value.count + 1, yp.value.count + 2, a.lines, step, b.lines)), b.yp)
  {
  }

  /** A `for` hands out `loop` and `break`; binding the iterator hands out
      nothing. */
  lemma ForOk(em: Emitted, a: Block, b: Block, step: string, d: nat, yp: Option<YieldPoint>, exact: bool, alloc: bool)
    requires yp.Some?
    requires BlockOk(a, d, Some(YieldPoint(yp.value.count + 2)), true, false, {})
    requires BlockOk(b, d, a.yp, exact, alloc, {})
    requires em == Emitted(Many(ForLines(d, yp.value.count + 1, yp.value.count + 2, a.lines, step, b.lines)), b.yp)
    ensures EmitOk(em, d, yp, exact, true)
  {
    var c0 := yp.value.count;
    ForLinesOk(d, c0, step, a.lines, b.lines, Count(b.yp), exact);
    Emit(ForLines(d, c0 + 1, c0 + 2, a.lines, step, b.lines), b.yp, d, yp, exact, true);
  }

  lemma {:induction false} ForLabels(env: Env, reg: Client.Registry, d: nat, ctx: string,
                                     yp: Option<YieldPoint>, s: Stmt)
    requires s.For? && CompileStmt(env, reg, d, ctx, yp, s).Ok?
    ensures EmitOk(CompileStmt(env, reg, d, ctx, yp, s).value, d, yp, Visible(s), Allocates(s))
    decreases s, 1
  {
    LoopFlags(s);
    ForShape(env, reg, d, ctx, yp, s);
    var y2 := Some(YieldPoint(yp.value.count + 2));
    AssignLabels(env, d, ctx, "$ctx.local", y2, [Single(Name("iter"))], Computed(s.iter));
    var a := CompileAssign(env, d, ctx, "$ctx.local", y2, [Single(Name("iter"))], Computed(s.iter)).value;
    BlockLabels(env, reg, d, "$ctx.local", a.yp, s.body, 0);
    ForOk(CompileStmt(env, reg, d, ctx, yp, s).value, a, CompileBlock(env, reg, d, "$ctx.local", a.yp, s.body, 0).value,
          ForStep(env, ctx, CompileExpr(env, ctx, s.loopVar).value), d, yp, AllVisible(s.body), AllocatesAny(s.body));
  }

  /** An `if` adds no label of its own. */
  lemma {:induction false} IfLinesOk(t: string, body: seq<Line>, orelse: Option<seq<Line>>, d: nat,
                                     lo: nat, mid: nat, hi: nat, eb: bool, ee: bool)
    requires Labelled(body, d, lo, mid, eb, {})
    requires orelse.None? ==> mid == hi && ee
    requires orelse.Some? ==> Labelled(orelse.value, d, mid, hi, ee, {})
    ensures Labelled(IfLines(t, body, orelse), d, lo, hi, eb && ee, {})
  {
    var open := [Plain("if (" + t + ") {")];
    Plain1(open[0].body.s, d, lo, {});
    Compose(open, body, d, lo, lo, mid, true, eb, {});
    match orelse
    case None =>
      Plain1("}", d, mid, {});
      Compose(open + body, [Plain("}")], d, lo, mid, mid, eb, true, {});
    case Some(e) =>
      var sep := [Plain("}"), Plain("else {")];
      TextLabelled(sep, d, mid, {});
      Compose(open + body, sep, d, lo, mid, mid, eb, true, {});
      Compose(open + body + sep, e, d, lo, mid, hi, eb, ee, {});
      Plain1("}", d, hi, {});
      Compose(open + body + sep + e, [Plain("}")], d, lo, hi, hi, eb && ee, true, {});
  }

  /** What a successful `if` lowering is made of. */
  lemma IfShape(env: Env, reg: Client.Registry, d: nat, ctx: string, yp: Option<YieldPoint>, s: Stmt)
    requires s.If? && CompileStmt(env, reg, d, ctx, yp, s).Ok?
    ensures yp.Some? ==> !AllocatesAny(s.body) && !AllocatesAny(s.orelse)
    ensures CompileExpr(env, ctx, s.cond).Ok? && CompileBlock(env, reg, d, ctx, yp, s.body, 2).Ok?
    ensures var t := CompileExpr(env, ctx, s.cond).value;
      var b := CompileBlock(env, reg, d, ctx, yp, s.body, 2).value;
      if |s.orelse| == 0 then
        CompileStmt(env, reg, d, ctx, yp, s).value == Emitted(Many(IfLines(t, b.lines, None)), b.yp)
      else
        CompileBlock(env, reg, d, ctx, b.yp, s.orelse, 2).Ok?
        && var e := CompileBlock(env, reg, d, ctx, b.yp, s.orelse, 2).value;
           CompileStmt(env, reg, d, ctx, yp, s).value == Emitted(Many(IfLines(t, b.lines, Some(e.lines))), e.yp)
  {
  }

  lemma IfThenOk(em: Emitted, t: string, b: Block, d: nat, yp: Option<YieldPoint>, exact: bool, alloc: bool)
    requires BlockOk(b, d, yp, exact, alloc, {})
    requires em == Emitted(Many(IfLines(t, b.lines, None)), b.yp)
    ensures EmitOk(em, d, yp, exact, alloc)
  {
    IfLinesOk(t, b.lines, None, d, Count(yp), Count(b.yp), Count(b.yp), exact, true);
    Emit(IfLines(t, b.lines, None), b.yp, d, yp, exact, alloc);
  }

  lemma IfElseOk(em: Emitted, t: string, b: Block, e: Block, d: nat, yp: Option<YieldPoint>,
                 eb: bool, ab: bool, ee: bool, ae: bool)
    requires BlockOk(b, d, yp, eb, ab, {})
    requires BlockOk(e, d, b.yp, ee, ae, {})
    requires em == Emitted(Many(IfLines(t, b.lines, Some(e.lines))), e.yp)
    ensures EmitOk(em, d, yp, eb && ee, ab || ae)
  {
    IfLinesOk(t, b.lines, Some(e.lines), d, Count(yp), Count(b.yp), Count(e.yp), eb, ee);
    Emit(IfLines(t, b.lines, Some(e.lines)), e.yp, d, yp, eb && ee, ab || ae);
  }

  lemma {:induction false} IfLabels(env: Env, reg: Client.Registry, d: nat, ctx: string,
                                    yp: Option<YieldPoint>, s: Stmt)
    requires s.If? && CompileStmt(env, reg, d, ctx, yp, s).Ok?
    ensures EmitOk(CompileStmt(env, reg, d, ctx, yp, s).value, d, yp, Visible(s), Allocates(s))
    decreases s, 1
  {
    IfFlags(s);
    IfShape(env, reg, d, ctx, yp, s);
    var t := CompileExpr(env, ctx, s.cond).value;
    BlockLabels(env, reg, d, ctx, yp, s.body, 2);
    var b := CompileBlock(env, reg, d, ctx, yp, s.body, 2).value;
    Quiet(b, d, yp, AllVisible(s.body), AllocatesAny(s.body), {});
    if |s.orelse| == 0 {
      SeqFlags(s.orelse);
      IfThenOk(CompileStmt(env, reg, d, ctx, yp, s).value, t, b, d, yp, true, AllocatesAny(s.body));
    } else {
      BlockLabels(env, reg, d, ctx, b.yp, s.orelse, 2);
      var e := CompileBlock(env, reg, d, ctx, b.yp, s.orelse, 2).value;
      Quiet(e, d, b.yp, AllVisible(s.orelse), AllocatesAny(s.orelse), {});
      IfElseOk(CompileStmt(env, reg, d, ctx, yp, s).value, t, b, e,
               d, yp, true, AllocatesAny(s.body), true, AllocatesAny(s.orelse));
    }
  }

  /** Labels do not depend on the order of the lines. */
  lemma {:induction false} Reorder(a: seq<Line>, p: seq<Line>, b: seq<Line>, q: seq<Line>, d: nat,
                                   lo: nat, hi: nat, exact: bool, extra: set<nat>)
    requires Labelled(p + (a + b) + q, d, lo, hi, exact, extra)
    ensures Labelled(a + p + b + q, d, lo, hi, exact, extra)
  {
    Append3(a, p, b, d);
    Append(a + p + b, q, d);
    Append3(p, a + b, q, d);
    Append(a, b, d);
    var x, y := a + p + b + q, p + (a + b) + q;
    assert Cases(x, d) == Cases(y, d);
    assert Targets(x, d) == Targets(y, d);
    assert TagsFrom(x, d) == TagsFrom(y, d);
  }

  lemma {:induction false} TryInner(body: seq<Line>, hs: seq<Line>, d: nat, c0: nat, mid: nat, hi: nat,
                                    eb: bool, eh: bool)
    requires Labelled(body, d, c0 + 2, mid, eb, {c0 + 1})
    requires Labelled(hs, d, mid, hi, eh, {})
    ensures Labelled(body + hs, d, c0 + 2, hi, eb && eh, {c0 + 1})
  {
    Weaken(hs, d, mid, hi, eh, {}, {c0 + 1});
    Compose(body, hs, d, c0 + 2, mid, hi, eb, eh, {c0 + 1});
  }

  lemma {:induction false} TryEnds(d: nat, c0: nat)
    ensures Cases(TryJoin(d, c0 + 1, c0 + 2), d) + Cases([Line(0, Case(d, c0 + 2))], d) == Range(c0, c0 + 2)
    ensures Targets(TryJoin(d, c0 + 1, c0 + 2), d) + Targets([Line(0, Case(d, c0 + 2))], d) == {c0 + 2}
    ensures TagsFrom(TryJoin(d, c0 + 1, c0 + 2), d) && TagsFrom([Line(0, Case(d, c0 + 2))], d)
  {
    TailLabels(d, c0 + 2, c0 + 1);
    SingleLine(Line(0, Case(d, c0 + 2)), d);
    TwoLabels(c0);
  }

  /** The lines of a lowered try: the guarded body's labels and the
      handlers' labels follow `exc` (c0+1) and `cont` (c0+2). */
  lemma {:induction false} TryLinesLabelled(body: seq<Line>, hs: seq<Line>, d: nat, c0: nat, mid: nat, hi: nat,
                                            eb: bool, eh: bool)
    requires Labelled(body, d, c0 + 2, mid, eb, {c0 + 1})
    requires Labelled(hs, d, mid, hi, eh, {})
    ensures Labelled(TryLines(d, c0 + 1, c0 + 2, body, hs), d, c0, hi, eb && eh, {})
  {
    TryInner(body, hs, d, c0, mid, hi, eb, eh);
    TryEnds(d, c0);
    Frame(TryJoin(d, c0 + 1, c0 + 2), body + hs, [Line(0, Case(d, c0 + 2))], d, c0, c0 + 2, hi, eb && eh, {c0 + 1});
    Reorder(body, TryJoin(d, c0 + 1, c0 + 2), hs, [Line(0, Case(d, c0 + 2))], d, c0, hi, eb && eh, {});
  }

  /** What a successful `try` lowering is made of. */
  lemma TryShape(env: Env, reg: Client.Registry, d: nat, ctx: string, yp: Option<YieldPoint>, s: Stmt)
    requires s.Try? && CompileStmt(env, reg, d, ctx, yp, s).Ok?
    ensures yp.Some?
    ensures var c0 := yp.value.count;
      CompileTryBody(env, reg, d, ctx, Some(YieldPoint(c0 + 2)), s.body, c0 + 1).Ok?
      && var b := CompileTryBody(env, reg, d, ctx, Some(YieldPoint(c0 + 2)), s.body, c0 + 1).value;
         CompileHandlers(env, reg, d, ctx, b.yp, s.handlers).Ok?
         && var h := CompileHandlers(env, reg, d, ctx, b.yp, s.handlers).value;
            CompileStmt(env, reg, d, ctx, yp, s).value == Emitted(Many(TryLines(d, c0 + 1, c0 + 2, b.lines, h.lines)), h.yp)
  {
  }

  /** A `try` hands out `except` and `continue`, then the guarded body's
      labels, then the handlers'. */
  lemma TryOk(em: Emitted, b: Block, h: Block, d: nat, yp: Option<YieldPoint>, eb: bool, ab: bool, eh: bool)
    requires yp.Some?
    requires BlockOk(b, d, Some(YieldPoint(yp.value.count + 2)), eb, ab, {yp.value.count + 1})
    requires BlockOk(h, d, b.yp, eh, true, {})
    requires em == Emitted(Many(TryLines(d, yp.value.count + 1, yp.value.count + 2, b.lines, h.lines)), h.yp)
    ensures EmitOk(em, d, yp, eb && eh, true)
  {
    var c0 := yp.value.count;
    TryLinesLabelled(b.lines, h.lines, d, c0, Count(b.yp), Count(h.yp), eb, eh);
    Emit(TryLines(d, c0 + 1, c0 + 2, b.lines, h.lines), h.yp, d, yp, eb && eh, true);
  }

  lemma {:induction false} TryLabels(env: Env, reg: Client.Registry, d: nat, ctx: string,
                                     yp: Option<YieldPoint>, s: Stmt)
    requires s.Try? && CompileStmt(env, reg, d, ctx, yp, s).Ok?
    ensures EmitOk(CompileStmt(env, reg, d, ctx, yp, s).value, d, yp, Visible(s), Allocates(s))
    decreases s, 1
  {
    TryFlags(s);
    TryShape(env, reg, d, ctx, yp, s);
    var c0 := yp.value.count;
    TryBodyLabels(env, reg, d, ctx, Some(YieldPoint(c0 + 2)), s.body, c0 + 1);
    var b := CompileTryBody(env, reg, d, ctx, Some(YieldPoint(c0 + 2)), s.body, c0 + 1).value;
    HandlersLabels(env, reg, d, ctx, b.yp, s.handlers);
    TryOk(CompileStmt(env, reg, d, ctx, yp, s).value, b, CompileHandlers(env, reg, d, ctx, b.yp, s.handlers).value,
          d, yp, TryBodyVisible(s.body), AllocatesAny(s.body), true);
  }

  lemma {:induction false} TryBodyLabels(env: Env, reg: Client.Registry, d: nat, ctx: string,
                                         yp: Option<YieldPoint>, ss: seq<Stmt>, handler: nat)
    requires CompileTryBody(env, reg, d, ctx, yp, ss, handler).Ok?
    ensures BlockOk(CompileTryBody(env, reg, d, ctx, yp, ss, handler).value, d, yp, TryBodyVisible(ss), AllocatesAny(ss), {handler})
    decreases ss, 0
  {
    if |ss| == 0 {
      SeqFlags(ss);
      EmptyOk(CompileTryBody(env, reg, d, ctx, yp, ss, handler).value, d, yp, {handler});
    } else {
      SeqFlags(ss);
      GuardedLabels(env, reg, d, ctx, yp, ss[0], handler);
      var first := CompileGuarded(env, reg, d, ctx, yp, ss[0], handler).value;
      TryBodyLabels(env, reg, d, ctx, first.yp, ss[1..], handler);
      Concat(CompileTryBody(env, reg, d, ctx, yp, ss, handler).value, first,
             CompileTryBody(env, reg, d, ctx, first.yp, ss[1..], handler).value, d, yp,
             ss[0].YieldStmt? || !Allocates(ss[0]), Allocates(ss[0]), TryBodyVisible(ss[1..]), AllocatesAny(ss[1..]), {handler});
    }
  }

  /** A wrapped statement shows only its jump to the handler. */
  lemma {:induction false} WrappedOk(d: nat, f: Fragment<Line>, handler: nat, lo: nat, hi: nat, exact: bool)
    requires lo <= hi && (exact ==> lo == hi)
    ensures Labelled(WrapInTry(d, f, handler), d, lo, hi, exact, {handler})
  {
    WrapLabels(d, f, handler);
    assert Targets(WrapInTry(d, f, handler), d) - {handler} == {};
    if exact {
      assert Range(lo, hi) == multiset{};
    }
  }

  /** A wrapped statement: a statement that hands out labels hides them in
      the one formatted line. */
  lemma WrapOk(g: Block, e: Emitted, d: nat, yp: Option<YieldPoint>, handler: nat, exact: bool, alloc: bool)
    requires EmitOk(e, d, yp, exact, alloc)
    requires g == Block(WrapInTry(d, e.frag, handler), e.yp)
    ensures BlockOk(g, d, yp, !alloc, alloc, {handler})
  {
    WrappedOk(d, e.frag, handler, Count(yp), Count(e.yp), !alloc);
  }

  lemma {:induction false} GuardedLabels(env: Env, reg: Client.Registry, d: nat, ctx: string,
                                         yp: Option<YieldPoint>, c: Stmt, handler: nat)
    requires CompileGuarded(env, reg, d, ctx, yp, c, handler).Ok?
    ensures BlockOk(CompileGuarded(env, reg, d, ctx, yp, c, handler).value, d, yp,
                    c.YieldStmt? || !Allocates(c), Allocates(c), {handler})
    decreases c, 3
  {
    if c.YieldStmt? {
      SimpleFlags(c);
      assert CompileGuarded(env, reg, d, ctx, yp, c, handler) == CompileYield(env, d, ctx, yp, c.result, Some(handler));
      YieldLabels(env, d, ctx, yp, c.result, Some(handler));
    } else {
      StmtLabels(env, reg, d, ctx, yp, c);
      WrapOk(CompileGuarded(env, reg, d, ctx, yp, c, handler).value, CompileStmt(env, reg, d, ctx, yp, c).value,
             d, yp, handler, Visible(c), Allocates(c));
    }
  }

  lemma {:induction false} HandlersLabels(env: Env, reg: Client.Registry, d: nat, ctx: string,
                                          yp: Option<YieldPoint>, hs: seq<Handler>)
    requires CompileHandlers(env, reg, d, ctx, yp, hs).Ok?
    ensures BlockOk(CompileHandlers(env, reg, d, ctx, yp, hs).value, d, yp, true, true, {})
    decreases hs, 0
  {
    if |hs| == 0 {
      EmptyOk(CompileHandlers(env, reg, d, ctx, yp, hs).value, d, yp, {});
    } else {
      HandlerLabels(env, reg, d, ctx, yp, hs[0]);
      var first := CompileHandler(env, reg, d, ctx, yp, hs[0]).value;
      HandlersLabels(env, reg, d, ctx, first.yp, hs[1..]);
      Concat(CompileHandlers(env, reg, d, ctx, yp, hs).value, first,
             CompileHandlers(env, reg, d, ctx, first.yp, hs[1..]).value, d, yp,
             true, true, true, true, {});
    }
  }

  /** Text lines around a labelled stretch change none of its labels. */
  lemma {:induction false} Surround(head: seq<Line>, body: seq<Line>, tail: seq<Line>, d: nat,
                                    lo: nat, hi: nat, exact: bool, extra: set<nat>)
    requires forall i :: 0 <= i < |head| ==> head[i].body.Text?
    requires forall i :: 0 <= i < |tail| ==> tail[i].body.Text?
    requires Labelled(body, d, lo, hi, exact, extra)
    ensures Labelled(head + body + tail, d, lo, hi, exact, extra)
  {
    TextLabelled(head, d, lo, extra);
    TextLabelled(tail, d, hi, extra);
    Compose(head, body, d, lo, lo, hi, true, exact, extra);
    Compose(head + body, tail, d, lo, hi, hi, exact, true, extra);
  }

  lemma {:induction false} HandlerLinesOk(head: string, body: seq<Line>, d: nat, lo: nat, hi: nat, exact: bool)
    requires Labelled(body, d, lo, hi, exact, {})
    ensures Labelled(HandlerLines(head, body), d, lo, hi, exact, {})
  {
    Surround([Plain(head)], body, [Line(2, Text("__exception__ = undefined")), Plain("}")], d, lo, hi, exact, {});
  }

  lemma HandlerOk(bl: Block, head: string, b: Block, d: nat, yp: Option<YieldPoint>, exact: bool, alloc: bool)
    requires BlockOk(b, d, yp, exact, alloc, {})
    requires bl == Block(HandlerLines(head, b.lines), b.yp)
    ensures BlockOk(bl, d, yp, exact, alloc, {})
  {
    HandlerLinesOk(head, b.lines, d, Count(yp), Count(b.yp), exact);
  }

  lemma {:induction false} HandlerLabels(env: Env, reg: Client.Registry, d: nat, ctx: string,
                                         yp: Option<YieldPoint>, h: Handler)
    requires CompileHandler(env, reg, d, ctx, yp, h).Ok?
    ensures BlockOk(CompileHandler(env, reg, d, ctx, yp, h).value, d, yp, true, true, {})
    decreases h, 1
  {
    var head := HandlerHead(h.typeRepr);
    BlockLabels(env, reg, d, ctx, yp, h.body, 2);
    var b := CompileBlock(env, reg, d, ctx, yp, h.body, 2).value;
    Quiet(b, d, yp, AllVisible(h.body), AllocatesAny(h.body), {});
    HandlerOk(CompileHandler(env, reg, d, ctx, yp, h).value, head, b, d, yp, true, true);
  }

  lemma HeaderTags(fctx: string, name: string, params: seq<string>, tag: nat)
    ensures TagsFrom(FunctionHeader(fctx, name, params, tag), tag)
  {
  }

  /** A nested function's lines belong to the dispatcher one level down. */
  lemma {:induction false} FunctionLinesOk(fctx: string, name: string, params: seq<string>, d: nat,
                                           body: seq<Line>, c: nat)
    requires TagsFrom(body, d + 1)
    ensures Labelled(FunctionLines(fctx, name, params, d + 1, body), d, c, c, true, {})
  {
    var head := FunctionHeader(fctx, name, params, d + 1);
    var ls := FunctionLines(fctx, name, params, d + 1, body);
    HeaderTags(fctx, name, params, d + 1);
    forall i | 0 <= i < |ls| && !ls[i].body.Text? ensures ls[i].body.tag >= d + 1 {
      if i < |head| {
        assert ls[i] == head[i];
      } else {
        assert ls[i] == body[i - |head|];
      }
    }
    Deeper(ls, d);
    assert Range(c, c) == multiset{};
  }

  lemma FunctionOk(em: Emitted, fctx: string, name: string, params: seq<string>, b: Block,
                   d: nat, yp: Option<YieldPoint>, exact: bool, alloc: bool)
    requires BlockOk(b, d + 1, Some(Fresh()), exact, alloc, {})
    requires em == Emitted(Many(FunctionLines(fctx, name, params, d + 1, b.lines)), yp)
    ensures EmitOk(em, d, yp, true, false)
  {
    FunctionLinesOk(fctx, name, params, d, b.lines, Count(yp));
    Emit(FunctionLines(fctx, name, params, d + 1, b.lines), yp, d, yp, true, false);
  }

  /** What a successful function lowering is made of: the enclosing
      yield point passes through unchanged. */
  lemma FunctionShape(env: Env, reg: Client.Registry, d: nat, ctx: string, yp: Option<YieldPoint>, s: Stmt)
    requires s.FunctionDef? && CompileStmt(env, reg, d, ctx, yp, s).Ok?
    ensures CompileBlock(env, reg, d + 1, "$ctx.local", Some(Fresh()), s.body, 6).Ok?
    ensures CompileStmt(env, reg, d, ctx, yp, s).value
      == Emitted(Many(FunctionLines(Receiver(ctx), s.fname, s.params, d + 1,
                                    CompileBlock(env, reg, d + 1, "$ctx.local", Some(Fresh()), s.body, 6).value.lines)), yp)
  {
  }

  /** A nested function shows no label to the enclosing dispatcher and
      leaves its yield point as it was. */
  lemma {:induction false} FunctionDefLabels(env: Env, reg: Client.Registry, d: nat, ctx: string,
                                             yp: Option<YieldPoint>, s: Stmt)
    requires s.FunctionDef? && CompileStmt(env, reg, d, ctx, yp, s).Ok?
    ensures EmitOk(CompileStmt(env, reg, d, ctx, yp, s).value, d, yp, Visible(s), Allocates(s))
    decreases s, 1
  {
    SimpleFlags(s);
    FunctionShape(env, reg, d, ctx, yp, s);
    BlockLabels(env, reg, d + 1, "$ctx.local", Some(Fresh()), s.body, 6);
    FunctionOk(CompileStmt(env, reg, d, ctx, yp, s).value, Receiver(ctx), s.fname, s.params,
               CompileBlock(env, reg, d + 1, "$ctx.local", Some(Fresh()), s.body, 6).value, d, yp,
               AllVisible(s.body), AllocatesAny(s.body));
  }

  lemma ScopeText(events: seq<(string, Client.EventTag)>)
    ensures forall i :: 0 <= i < |ScopeLines(events)| ==> ScopeLines(events)[i].body.Text?
  {
    var e, t := EventLines(events), ScopeTail(2);
    forall i | 0 <= i < |ScopeLines(events)| ensures ScopeLines(events)[i].body.Text? {
      if i < |e| {
        assert ScopeLines(events)[i] == e[i];
      } else {
        assert ScopeLines(events)[i] == t[i - |e|];
      }
    }
  }

  lemma {:induction false} ClassTailText(cctx: string, className: string, inject: seq<string>,
                                         scope: seq<Line>, proto: seq<Line>)
    requires forall i :: 0 <= i < |scope| ==> scope[i].body.Text?
    requires forall i :: 0 <= i < |proto| ==> proto[i].body.Text?
    ensures var t := ClassTail(cctx, className, inject, scope, proto);
      forall i :: 0 <= i < |t| ==> t[i].body.Text?
  {
    var t := ClassTail(cctx, className, inject, scope, proto);
    forall i | 0 <= i < |t| ensures t[i].body.Text? {
      if i < |scope| {
        assert t[i] == scope[i];
      } else if i >= |scope| + 2 {
        assert t[i] == proto[i - |scope| - 2];
      }
    }
  }

  /** A class adds no label of its own. */
  lemma {:induction false} ClassLinesOk(cctx: string, className: string, cname: string, inject: seq<string>,
                                        body: seq<Line>, scope: seq<Line>, proto: seq<Line>,
                                        d: nat, lo: nat, hi: nat, exact: bool)
    requires forall i :: 0 <= i < |scope| ==> scope[i].body.Text?
    requires forall i :: 0 <= i < |proto| ==> proto[i].body.Text?
    requires Labelled(body, d, lo, hi, exact, {})
    ensures Labelled(ClassLines(cctx, className, cname, inject, body, scope, proto), d, lo, hi, exact, {})
  {
    ClassTailText(cctx, className, inject, scope, proto);
    Surround([Plain(cctx + "." + className + " = function " + cname + "(" + Text.Join(", ", inject) + ") {")],
             body, ClassTail(cctx, className, inject, scope, proto), d, lo, hi, exact, {});
  }

  /** What a successful class lowering is made of. */
  lemma ClassShape(env: Env, reg: Client.Registry, d: nat, ctx: string, yp: Option<YieldPoint>, s: Stmt)
    requires s.ClassDef? && CompileStmt(env, reg, d, ctx, yp, s).Ok?
    ensures |s.bases| <= 1 && (|s.bases| == 1 ==> s.bases[0].Attribute?)
    ensures yp.Some? ==> !AllocatesAny(s.body)
    ensures var isScope := |s.bases| == 1 && s.bases[0].attr in reg;
      CompileBlock(env, reg, d, if isScope then "$scope" else ctx, yp, s.body, 2).Ok?
      && ClassProto(env, ctx, Receiver(ctx), s.cname, s.bases, isScope).Ok?
      && var b := CompileBlock(env, reg, d, if isScope then "$scope" else ctx, yp, s.body, 2).value;
         CompileStmt(env, reg, d, ctx, yp, s).value
         == Emitted(Many(ClassOutput(reg, ctx, s, isScope, b.lines,
                                     ClassProto(env, ctx, Receiver(ctx), s.cname, s.bases, isScope).value)), b.yp)
  {
  }

  /** A class adds no label of its own around its body's. */
  lemma ClassOk(em: Emitted, reg: Client.Registry, ctx: string, s: Stmt, isScope: bool, b: Block, proto: seq<Line>,
                d: nat, yp: Option<YieldPoint>, exact: bool, alloc: bool)
    requires s.ClassDef? && |s.bases| <= 1 && (|s.bases| == 1 ==> s.bases[0].Attribute?)
    requires isScope ==> |s.bases| == 1 && s.bases[0].attr in reg
    requires forall i :: 0 <= i < |proto| ==> proto[i].body.Text?
    requires BlockOk(b, d, yp, exact, alloc, {})
    requires em == Emitted(Many(ClassOutput(reg, ctx, s, isScope, b.lines, proto)), b.yp)
    ensures EmitOk(em, d, yp, exact, alloc)
  {
    var inject := if isScope then ["$scope", "$element"] else [];
    var className := ClassName(s.cname, s.bases, isScope);
    if isScope {
      var scope := ScopeLines(reg[s.bases[0].attr].events);
      ScopeText(reg[s.bases[0].attr].events);
      ClassLinesOk(Receiver(ctx), className, s.cname, inject, b.lines, scope, proto, d, Count(yp), Count(b.yp), exact);
    } else {
      ClassLinesOk(Receiver(ctx), className, s.cname, inject, b.lines, [], proto, d, Count(yp), Count(b.yp), exact);
    }
    Emit(ClassOutput(reg, ctx, s, isScope, b.lines, proto), b.yp, d, yp, exact, alloc);
  }

  lemma {:induction false} ClassDefLabels(env: Env, reg: Client.Registry, d: nat, ctx: string,
                                          yp: Option<YieldPoint>, s: Stmt)
    requires s.ClassDef? && CompileStmt(env, reg, d, ctx, yp, s).Ok?
    ensures EmitOk(CompileStmt(env, reg, d, ctx, yp, s).value, d, yp, Visible(s), Allocates(s))
    decreases s, 1
  {
    ClassFlags(s);
    ClassShape(env, reg, d, ctx, yp, s);
    var isScope := |s.bases| == 1 && s.bases[0].attr in reg;
    var bctx := if isScope then "$scope" else ctx;
    BlockLabels(env, reg, d, bctx, yp, s.body, 2);
    var b := CompileBlock(env, reg, d, bctx, yp, s.body, 2).value;
    Quiet(b, d, yp, AllVisible(s.body), AllocatesAny(s.body), {});
    ClassOk(CompileStmt(env, reg, d, ctx, yp, s).value, reg, ctx, s, isScope, b,
            ClassProto(env, ctx, Receiver(ctx), s.cname, s.bases, isScope).value,
            d, yp, true, AllocatesAny(s.body));
  }
}
