/** `JSCompiler` of avalon/compiler/compiler.py: translates a Python
    module into JavaScript, lowering every function body to a
    `while (true) switch($ctx.next_state)` dispatcher whose `case`
    labels come from a per-function `YieldPoint`.

    Each visitor takes the node's effective receiver context `ctx`
    ("" when it has none) and the yield point it inherited (`None`
    outside any function), and returns its output with the yield point's
    new state: the counter object is shared by the whole function body,
    so threading it through in visiting order is the same thing.

    This is the corrected translator: where compiler.py departs from its
    evident intent it follows the intent. The corrected members are
    `LoopGuard`, `ForStep`, `CompileGuarded` and `GuardedSuspend` (whose
    three catch lines compiler.py passes to `extend` as one tuple),
    `Lines.HandlerHead`, `ClassName`, `EventLines` and the `NestedLabels`
    refusals; the code as written is modelled beside them (the
    `...AsWritten` members) and in `CompilerFindings`. */
module StateCompiler {
  import opened Wrappers
  import opened Text
  import opened Syntax
  import opened Lines
  import opened YieldPoints
  import Client
  import JsCache

  /** What a module-level name is bound to, as far as the translator
      cares: the session store, the document-store root, the `JSCode`
      marker, or anything else. Names absent from the map are unbound
      (or bound to `None`). */
  datatype Binding = SessionStore | ModelRoot | JSCodeMarker | OtherValue

  type Env = map<string, Binding>

  type Res<T> = Result<T, CompileError>

  /** A statement's output and the yield point after it. */
  datatype Emitted = Emitted(frag: Fragment<Line>, yp: Option<YieldPoint>)

  /** A block's lines and the yield point after it. */
  datatype Block = Block(lines: seq<Line>, yp: Option<YieldPoint>)

  /** `lookup`: the session store and the document-store root are
      rewritten by identity; any other bound name stays as it is. */
  function Lookup(env: Env, name: string): (r: Option<string>)
    ensures name !in env <==> r.None?
    ensures name in env && env[name] == SessionStore ==> r == Some("_session")
    ensures name in env && env[name] == ModelRoot ==> r == Some("avalon.model")
    ensures name in env && env[name] !in {SessionStore, ModelRoot} ==> r == Some(name)
  {
    if name !in env then None
    else match env[name]
      case SessionStore => Some("_session")
      case ModelRoot => Some("avalon.model")
      case _ => Some(name)
  }

  /** `visit_Name`. */
  function NameText(env: Env, ctx: string, id: string): string
  {
    var l := Lookup(env, id);
    if l.Some? && l.value != "" then l.value
    else if id == "None" then "undefined"
    else if id == "True" then "true"
    else if id == "False" then "false"
    else if ctx != "" then ctx + "." + id
    else id
  }

  /** `visit_Str`. */
  function StringLiteral(s: string): string
  {
    "\"" + EscapeNewlines(s) + "\""
  }

  /** A table lookup that raises KeyError on a missing entry. */
  function Need(o: Option<string>, what: string): Res<string>
  {
    if o.Some? then Ok(o.value) else Err(KeyErr(what))
  }

  function CmpSymbols(ops: seq<CmpOp>): Res<seq<string>>
  {
    if |ops| == 0 then Ok([])
    else
      var s :- Need(CmpSymbol(ops[0]), "comparison operator");
      var rest :- CmpSymbols(ops[1..]);
      Ok([s] + rest)
  }

  /** `a op1 b`, `b op2 c`, ... for a chained comparison (zip truncates). */
  function ChainParts(left: string, syms: seq<string>, rights: seq<string>): seq<string>
    decreases |syms|
  {
    if |syms| == 0 || |rights| == 0 then []
    else [left + " " + syms[0] + " " + rights[0]] + ChainParts(rights[0], syms[1..], rights[1..])
  }

  function CompileExpr(env: Env, ctx: string, e: Expr): Res<string>
    decreases e, 1, 0
  {
    match e
    case Name(id) => Ok(NameText(env, ctx, id))
    case Num(n) => Ok(IntToString(n))
    case Str(s) => Ok(StringLiteral(s))
    case BinOp(l, op, r) =>
      var lt :- CompileExpr(env, ctx, l);
      var sym :- Need(BinOpSymbol(op), "binary operator");
      var rt :- CompileExpr(env, ctx, r);
      Ok(lt + " " + sym + " " + rt)
    case UnaryOp(op, x) =>
      var t :- CompileExpr(env, ctx, x);
      Ok(UnarySymbol(op) + "(" + t + ")")
    case BoolOp(op, vs) =>
      var ts :- CompileExprs(env, ctx, vs);
      Ok("(" + Join(BoolSymbol(op), ts) + ")")
    case Compare(first, ops, comps) =>
      var lt :- CompileExpr(env, ctx, first);
      var syms :- CmpSymbols(ops);
      var rts :- CompileExprs(env, ctx, comps);
      Ok(Join("&&", ChainParts(lt, syms, rts)))
    case Call(func, args) =>
      var ft :- CompileExpr(env, ctx, func);
      var fctx :- if func.Attribute? then CompileExpr(env, ctx, func.value) else Ok("this");
      if ft in env && env[ft] == JSCodeMarker then
        if |args| == 0 then Err(IndexErr("list index out of range"))
        else if args[0].Str? then Ok(args[0].s)
        else Err(AttributeErr("object has no attribute 's'"))
      else
        var ats :- CompileExprs(env, ctx, args);
        if ft == "print" then Ok("console.log(" + Join(", ", ats) + ");")
        else Ok(ft + ".apply(" + fctx + ", [" + Join(", ", ats) + "])")
    case Attribute(v, attr, load) =>
      var t :- CompileExpr(env, ctx, v);
      Ok(if load then "getattr(" + t + ", \"" + attr + "\")" else t + "." + attr)
    case Subscript(v, i) =>
      var vt :- CompileExpr(env, ctx, v);
      var it :- CompileExpr(env, ctx, i);
      Ok(vt + "[" + it + "]")
    case Dict(_, _) =>
      var ps :- CompileDictFrom(env, ctx, e, 0);
      Ok("{ " + Join(", ", ps) + " }")
    case List(es) =>
      var ts :- CompileExprs(env, ctx, es);
      Ok("[" + Join(", ", ts) + "]")
    case Tuple(es) =>
      var ts :- CompileExprs(env, ctx, es);
      Ok("[" + Join(", ", ts) + "]")
    case OtherExpr(kind) => Err(NotImplementedErr(kind))
  }

  function CompileExprs(env: Env, ctx: string, es: seq<Expr>): (r: Res<seq<string>>)
    ensures r.Ok? ==> |r.value| == |es|
    decreases es, 1, 0
  {
    if |es| == 0 then Ok([])
    else
      var t :- CompileExpr(env, ctx, es[0]);
      var rest :- CompileExprs(env, ctx, es[1..]);
      Ok([t] + rest)
  }

  /** The `key: value` entries of a dict display from position `i` on. */
  function CompileDictFrom(env: Env, ctx: string, e: Expr, i: nat): Res<seq<string>>
    requires e.Dict?
    decreases e, 0, |e.keys| - i
  {
    if i >= |e.keys| || i >= |e.vals| then Ok([])
    else
      var k :- CompileExpr(env, ctx, e.keys[i]);
      var v :- CompileExpr(env, ctx, e.vals[i]);
      var rest :- CompileDictFrom(env, ctx, e, i + 1);
      Ok([k + ": " + v] + rest)
  }

  // ---------------------------------------------------------------------
  // Suspension, assignment

  /** The four lines that stash the yielded value and suspend at `n`. */
  function SuspendLines(depth: nat, n: nat, value: string): seq<Line>
  {
    [Plain("var $tmp = " + value + ";"), Line(0, SetState(depth, n)),
     Plain("$ctx.yield = $tmp;"), Plain("return $ctx;")]
  }

  /** `visit_Yield`: one fresh label `n`; with a handler label the
      suspension is guarded so that a throw jumps to the handler. */
  function CompileYield(env: Env, depth: nat, ctx: string, yp: Option<YieldPoint>,
                        value: Option<Expr>, handler: Option<nat>): Res<Block>
  {
    if yp.None? then Err(SyntaxErr("Yield not inside a function block"))
    else
      var (n, y1) := Create(yp.value);
      if value.None? then Err(AttributeErr("'NoneType' object has no attribute 'parent'"))
      else
        var t :- CompileExpr(env, ctx, value.value);
        Ok(Block(Suspension(depth, n, t, handler), Some(y1)))
  }

  /** The suspension at label `n` followed by the label's `case` line;
      guarded by a catch that jumps to `handler` when there is one. */
  function Suspension(depth: nat, n: nat, value: string, handler: Option<nat>): seq<Line>
  {
    GuardedSuspend(depth, n, value, handler) + [Line(0, Case(depth, n))]
  }

  /** Corrected: the three catch lines are three lines of the output;
      compiler.py hands them to `extend` as a tuple, which `extend`
      appends as a single element. */
  function GuardedSuspend(depth: nat, n: nat, value: string, handler: Option<nat>): seq<Line>
  {
    var body := SuspendLines(depth, n, value);
    if handler.None? then body
    else [Plain("try {")] + IndentLines(body, 2)
         + [Plain("} catch ($exception) {"), Line(2, Jump(depth, handler.value, "")), Plain("}")]
  }

  /** Binding `target` to `source`, declaring it first when the
      assignment has no receiver context. */
  function Bind(decl: string, target: string, source: string): seq<Line>
  {
    (if decl == "" then [Plain("var " + target + " = " + source + ";")] else [])
    + [Plain(target + " = " + source + ";")]
  }

  function UnpackLines(env: Env, ctx: string, decl: string, parts: seq<Expr>, i: nat): Res<seq<Line>>
    decreases |parts| - i
  {
    if i >= |parts| then Ok([])
    else
      var t :- CompileExpr(env, ctx, parts[i]);
      var rest :- UnpackLines(env, ctx, decl, parts, i + 1);
      Ok(Bind(decl, t, "$assign[" + NatToString(i) + "]") + rest)
  }

  function TargetLines(env: Env, ctx: string, decl: string, targets: seq<Target>): Res<seq<Line>>
  {
    if |targets| == 0 then Ok([])
    else
      var first :- match targets[0]
        case Single(t) =>
          var tt :- CompileExpr(env, ctx, t);
          Ok(Bind(decl, tt, "$assign"))
        case Unpack(parts) => UnpackLines(env, ctx, decl, parts, 0);
      var rest :- TargetLines(env, ctx, decl, targets[1..]);
      Ok(first + rest)
  }

  /** `visit_Assign`: the value goes to `$assign` (read from `$ctx.send`
      after a yield), then each target takes it. `decl` is the
      assignment's own context, which decides whether targets are
      declared with `var`. */
  function CompileAssign(env: Env, depth: nat, ctx: string, decl: string, yp: Option<YieldPoint>,
                         targets: seq<Target>, rhs: Rhs): Res<Block>
  {
    var head :- match rhs
      case Computed(v) =>
        var t :- CompileExpr(env, ctx, v);
        Ok(Block([Plain("var $assign = " + t + ";")], yp))
      case Yielded(v) =>
        var b :- CompileYield(env, depth, ctx, yp, v, None);
        Ok(Block(b.lines + [Plain("var $assign = $ctx.send;")], b.yp));
    var tl :- TargetLines(env, ctx, decl, targets);
    Ok(Block(head.lines + tl, head.yp))
  }

  // ---------------------------------------------------------------------
  // Lowered control flow

  /** The guard of the loop and try lowerings: they need the yield point
      of an enclosing function. */
  function LoopGuard(yp: Option<YieldPoint>, what: string): (r: Res<YieldPoint>)
    ensures yp.Some? <==> r.Ok?
    ensures r.Ok? ==> r.value == yp.value
    ensures r.Err? ==> r.error == SyntaxErr(what + " not inside a function block")
  {
    if yp.None? then Err(SyntaxErr(what + " not inside a function block")) else Ok(yp.value)
  }

  /** The guard as the source writes it (`hasattr(node, 'yield_point')`),
      which holds for every node visited under a parent, so a missing
      yield point surfaces as `None.create()`. */
  function LoopGuardAsWritten(yp: Option<YieldPoint>, what: string): (r: Res<YieldPoint>)
    ensures yp.Some? <==> r.Ok?
    ensures r.Err? ==> r.error.AttributeErr?
  {
    if yp.None? then Err(AttributeErr("'NoneType' object has no attribute 'create'")) else Ok(yp.value)
  }

  /** The refusal of a yield or a lowered statement inside a function
      where its `case` lines would be nested in a `{ ... }` block: an `if`
      or `else` branch, an `except` body or a class body. */
  function NestedLabels(where: string): CompileError
  {
    NotImplementedErr("Yield point inside " + where + " not supported")
  }

  /** The line that advances a `for` loop: `target` takes the next value
      of `iter`; exhaustion throws into the catch that follows. */
  function StepLine(target: string, iter: string): string
  {
    "try { " + target + " = " + iter + ".next(); }"
  }

  /** The iteration step of a `for` loop: the loop variable, as visited,
      takes the iterator's next value. */
  function ForStep(env: Env, ctx: string, target: string): string
  {
    StepLine(target, NameText(env, ctx, "iter"))
  }

  /** The iteration step as the source writes it: the visited target,
      which already carries its receiver context, is prefixed again. */
  function ForStepAsWritten(target: string): string
  {
    StepLine("$ctx.local." + target, "$ctx.local.iter")
  }

  /** A try-body statement as the source lowers it: its output, formatted
      into one line, inside a try whose catch jumps to the handler. */
  function WrapInTry(depth: nat, f: Fragment<Line>, handler: nat): seq<Line>
  {
    [Plain("try { " + FragText(f) + " }"), Plain("catch($exception) {"),
     Line(2, Jump(depth, handler, "")), Plain("}")]
  }

  function FunctionHeader(fctx: string, name: string, params: seq<string>, tag: nat): seq<Line>
  {
    [Plain(fctx + "." + name + " = function " + name + "(" + Join(", ", params) + ") {"),
     Plain("  var $ctx = {next_state: 0, ctx: this};"),
     Plain("  $ctx.local = {" + Join(", ", LocalPairs(params)) + "};"),
     Plain("  $ctx.func = function($ctx) {"),
     Plain("    while (true) switch($ctx.next_state) {"),
     Line(6, Case(tag, 0))]
  }

  function LocalPairs(params: seq<string>): (r: seq<string>)
    ensures |r| == |params|
  {
    if |params| == 0 then [] else [params[0] + ": " + params[0]] + LocalPairs(params[1..])
  }

  /** A function: its header, the dispatcher's cases, then the default
      case and the call that starts the state machine. */
  function FunctionLines(fctx: string, name: string, params: seq<string>, tag: nat, body: seq<Line>): seq<Line>
  {
    FunctionHeader(fctx, name, params, tag) + body + seq(5, i requires 0 <= i => Plain(FooterText(i)))
  }

  /** Line `i` of a function's closing lines: the dispatcher's default
      case, the closing braces, and the call that starts the machine. */
  function FooterText(i: nat): string
  {
    match i
    case 0 => "      default: return;"
    case 1 => "    }"
    case 2 => "  }"
    case 3 => "  return $ctx.func.call(this, $ctx);"
    case _ => "}"
  }

  // ---------------------------------------------------------------------
  // Reactive scope boilerplate

  /** One delegated event listener: event name, selector, handler method. */
  function EventBlock(eventName: string, selector: string, handlerName: string): string
  {
    "  $element.on(\"" + eventName + "\", \"" + selector + "\", function eventHandler(e) {\n"
    + "    var t = angular.element(e.target).scope();\n"
    + "    $scope.$apply(function() { $scope." + handlerName + "($scope, t, e) });\n"
    + "  })"
  }

  /** One listener per registered event, wired to its handler method. */
  function EventLines(events: seq<(string, Client.EventTag)>): (r: seq<Line>)
    ensures |r| == |events|
    ensures forall i :: 0 <= i < |events| ==>
      r[i] == Plain(EventBlock(events[i].1.eventName, events[i].1.selector, events[i].0))
  {
    if |events| == 0 then []
    else [Plain(EventBlock(events[0].1.eventName, events[0].1.selector, events[0].0))] + EventLines(events[1..])
  }

  /** The listeners as the source writes them: iterating the events dict
      yields its keys (the method names), and `format(*key)` spreads the
      key's characters over the three placeholders. */
  function EventLinesAsWritten(events: seq<(string, Client.EventTag)>): Res<seq<Line>>
  {
    if |events| == 0 then Ok([])
    else
      var k := events[0].0;
      if |k| < 3 then Err(IndexErr("Replacement index out of range"))
      else
        var rest :- EventLinesAsWritten(events[1..]);
        Ok([Plain(EventBlock([k[0]], [k[1]], [k[2]]))] + rest)
  }

  /** Line `i` of the fixed part of a scope's constructor: teardown on
      `$destroy`, the attribute fallback for repeated scopes, then the
      `__init__` call. */
  function ScopeTailText(i: nat): string
  {
    match i
    case 0 => "$scope.$on(\"$destroy\", function() {"
    case 1 => "  $element.off();"
    case 2 => "})"
    case 3 => "var $getattr = $scope.__getattr__;"
    case 4 => "$scope.__getattr__ = function __getattr__(self, value) {"
    case 5 => "  return self.$item && self.$item[value] ||"
    case 6 => "    $getattr && $getattr(self, value);"
    case 7 => "}"
    case 8 => "if ($scope.__init__) {"
    case 9 => "  var __init__ = $scope.__init__;"
    case 10 => "  delete $scope.__init__;"
    case 11 => "  __init__($scope);"
    case _ => "}"
  }

  /** The thirteen fixed lines, each indented by `pad`. */
  function ScopeTail(pad: nat): seq<Line>
  {
    seq(13, i requires 0 <= i => Line(pad, Text(ScopeTailText(i))))
  }

  function ScopeLines(events: seq<(string, Client.EventTag)>): seq<Line>
  {
    EventLines(events) + ScopeTail(2)
  }

  /** The name a class's constructor is stored under: the scope name for a
      reactive scope, the class's own name otherwise. */
  function ClassName(cname: string, bases: seq<Expr>, isScope: bool): string
    requires |bases| <= 1 && (|bases| == 1 ==> bases[0].Attribute?)
    requires isScope ==> |bases| == 1
  {
    if isScope then bases[0].attr else cname
  }

  /** A class constructor around its body, then the scope boilerplate,
      the `$inject` list and the prototype link. */
  function ClassLines(cctx: string, className: string, cname: string, inject: seq<string>,
                      body: seq<Line>, scope: seq<Line>, proto: seq<Line>): seq<Line>
  {
    [Plain(cctx + "." + className + " = function " + cname + "(" + Join(", ", inject) + ") {")]
    + body + ClassTail(cctx, className, inject, scope, proto)
  }

  /** The receiver of a definition: the context, or `this` at top level. */
  function Receiver(ctx: string): string
  {
    if ctx != "" then ctx else "this"
  }

  /** A class definition's lines around its compiled body: a scope class
      takes `$scope` and `$element` and sets up the scope's members and
      event handlers. */
  function ClassOutput(reg: Client.Registry, ctx: string, s: Stmt, isScope: bool,
                       body: seq<Line>, proto: seq<Line>): seq<Line>
    requires s.ClassDef? && |s.bases| <= 1 && (|s.bases| == 1 ==> s.bases[0].Attribute?)
    requires isScope ==> |s.bases| == 1 && s.bases[0].attr in reg
  {
    var inject := if isScope then ["$scope", "$element"] else [];
    var scope := if isScope then ScopeLines(reg[s.bases[0].attr].events) else [];
    ClassLines(Receiver(ctx), ClassName(s.cname, s.bases, isScope), s.cname, inject, body, scope, proto)
  }

  function ClassTail(cctx: string, className: string, inject: seq<string>,
                     scope: seq<Line>, proto: seq<Line>): seq<Line>
  {
    scope + [Plain("};"), Plain(cctx + "." + className + ".$inject = " + JsonStringList(inject) + ";")] + proto
  }

  /** The prototype link of a class with a plain base. */
  function ClassProto(env: Env, ctx: string, cctx: string, cname: string, bases: seq<Expr>, isScope: bool)
    : (r: Res<seq<Line>>)
    requires |bases| <= 1
    ensures r.Ok? ==> forall i :: 0 <= i < |r.value| ==> r.value[i].body.Text?
    ensures r.Ok? && |r.value| > 0 ==> |bases| == 1 && !isScope
  {
    if !isScope && |bases| == 1 then
      var bt :- CompileExpr(env, ctx, bases[0]);
      Ok([Plain(cctx + "." + cname + ".prototype = new " + bt + "();")])
    else Ok([])
  }

  /** The name as the source computes it: the base's attribute name for
      any class with a base. */
  function ClassNameAsWritten(cname: string, bases: seq<Expr>, isScope: bool): string
    requires |bases| <= 1 && (|bases| == 1 ==> bases[0].Attribute?)
  {
    if |bases| == 1 then bases[0].attr else cname
  }

  // ---------------------------------------------------------------------
  // Statements

  /** The statements that compile without a nested block: expression
      statements, `yield`, `return`, `print`, assignments and imports. */
  function CompileSimpleStmt(env: Env, depth: nat, ctx: string, yp: Option<YieldPoint>, s: Stmt): Res<Emitted>
    requires s.ExprStmt? || s.YieldStmt? || s.Return? || s.Print? || s.Assign? || s.AugAssign?
             || s.Import? || s.ImportFrom? || s.Pass?
  {
    match s
    case ExprStmt(v) =>
      var t :- CompileExpr(env, ctx, v);
      Ok(Emitted(One(t), yp))
    case YieldStmt(v) =>
      var b :- CompileYield(env, depth, ctx, yp, v, None);
      Ok(Emitted(Many(b.lines), b.yp))
    case Return(v) =>
      if v.Some? then
        var t :- CompileExpr(env, ctx, v.value);
        Ok(Emitted(One("return " + t + ";"), yp))
      else Ok(Emitted(One("return;"), yp))
    case Print(vs) =>
      var ts :- CompileExprs(env, ctx, vs);
      Ok(Emitted(One("console.log(" + Join(", ", ts) + ");"), yp))
    case Assign(targets, rhs) =>
      var b :- CompileAssign(env, depth, ctx, ctx, yp, targets, rhs);
      Ok(Emitted(Many(b.lines), b.yp))
    case AugAssign(t, op, v) =>
      var tt :- CompileExpr(env, ctx, t);
      var sym :- Need(BinOpSymbol(op), "binary operator");
      var vt :- CompileExpr(env, ctx, v);
      Ok(Emitted(One(tt + " " + sym + "= " + vt + ";"), yp))
    case Import => Ok(Emitted(One(""), yp))
    case ImportFrom => Ok(Emitted(One(""), yp))
    case Pass => Ok(Emitted(Many([Plain("// pass")]), yp))
  }

  function CompileStmt(env: Env, reg: Client.Registry, depth: nat, ctx: string,
                       yp: Option<YieldPoint>, s: Stmt): Res<Emitted>
    decreases s, 2
  {
    match s
    case For(_, _, _, _) => CompileFor(env, reg, depth, ctx, yp, s)
    case While(_, _, _) => CompileWhile(env, reg, depth, ctx, yp, s)
    case If(_, _, _) => CompileIf(env, reg, depth, ctx, yp, s)
    case Try(_, _) => CompileTry(env, reg, depth, ctx, yp, s)
    case FunctionDef(_, _, _) => CompileFunctionDef(env, reg, depth, ctx, yp, s)
    case ClassDef(_, _, _) => CompileClassDef(env, reg, depth, ctx, yp, s)
    case Break => Err(NotImplementedErr("Break"))
    case Continue => Err(NotImplementedErr("Continue"))
    case OtherStmt(kind) => Err(NotImplementedErr(kind))
    case _ => CompileSimpleStmt(env, depth, ctx, yp, s)
  }

  /** The statements of a block in order, each indented by `pad`. */
  function CompileBlock(env: Env, reg: Client.Registry, depth: nat, ctx: string,
                        yp: Option<YieldPoint>, ss: seq<Stmt>, pad: nat): Res<Block>
    decreases ss, 0
  {
    if |ss| == 0 then Ok(Block([], yp))
    else
      var e :- CompileStmt(env, reg, depth, ctx, yp, ss[0]);
      var rest :- CompileBlock(env, reg, depth, ctx, e.yp, ss[1..], pad);
      Ok(Block(FragLines(IndentFrag(e.frag, pad)) + rest.lines, rest.yp))
  }

  /** Loop entry: the `loop` label, then a jump to `brk` unless the test
      holds. */
  function WhileHead(depth: nat, loop: nat, brk: nat, test: string): seq<Line>
  {
    [Line(0, Case(depth, loop)), Plain("if (!(" + test + ")) {"), Line(2, Jump(depth, brk, "")), Plain("}")]
  }

  /** Loop entry of a `for`: the `loop` label, then the step, whose
      exhaustion jumps to `brk`. */
  function ForHead(depth: nat, loop: nat, brk: nat, step: string): seq<Line>
  {
    [Line(0, Case(depth, loop)), Plain(step), Plain("catch($exception) {"),
     Line(2, Jump(depth, brk, " ")), Plain("}")]
  }

  /** Loop exit: back to `loop`, then the `brk` label. */
  function LoopTail(depth: nat, loop: nat, brk: nat): seq<Line>
  {
    [Line(0, Jump(depth, loop, "")), Line(0, Case(depth, brk))]
  }

  /** After the guarded body: skip the handlers, then the `exc` label. */
  function TryJoin(depth: nat, exc: nat, cont: nat): seq<Line>
  {
    [Line(0, Jump(depth, cont, "")), Line(0, Case(depth, exc))]
  }

  function WhileLines(depth: nat, loop: nat, brk: nat, test: string, body: seq<Line>): seq<Line>
  {
    WhileHead(depth, loop, brk, test) + body + LoopTail(depth, loop, brk)
  }

  function ForLines(depth: nat, loop: nat, brk: nat, init: seq<Line>, step: string, body: seq<Line>): seq<Line>
  {
    init + ForHead(depth, loop, brk, step) + body + LoopTail(depth, loop, brk)
  }

  /** An `if`, with its `else` branch when there is one. */
  function IfLines(test: string, body: seq<Line>, orelse: Option<seq<Line>>): seq<Line>
  {
    match orelse
    case None => [Plain("if (" + test + ") {")] + body + [Plain("}")]
    case Some(e) => [Plain("if (" + test + ") {")] + body + [Plain("}"), Plain("else {")] + e + [Plain("}")]
  }

  function TryLines(depth: nat, exc: nat, cont: nat, body: seq<Line>, handlers: seq<Line>): seq<Line>
  {
    body + TryJoin(depth, exc, cont) + handlers + [Line(0, Case(depth, cont))]
  }

  function HandlerLines(head: string, body: seq<Line>): seq<Line>
  {
    [Plain(head)] + body + [Line(2, Text("__exception__ = undefined")), Plain("}")]
  }

  /** `visit_While`: labels `loop` and `break`; the negated test jumps to
      `break`, the body ends with a jump back to `loop`. */
  function CompileWhile(env: Env, reg: Client.Registry, depth: nat, ctx: string,
                        yp: Option<YieldPoint>, s: Stmt): Res<Emitted>
    requires s.While?
    decreases s, 1
  {
    if |s.orelse| > 0 then Err(NotImplementedErr("While else statement not supported"))
    else
      var y :- LoopGuard(yp, "While statement");
      var (loop, y1) := Create(y);
      var (brk, y2) := Create(y1);
      var t :- CompileExpr(env, ctx, s.test);
      var b :- CompileBlock(env, reg, depth, "$ctx.local", Some(y2), s.body, 0);
      Ok(Emitted(Many(WhileLines(depth, loop, brk, t, b.lines)), b.yp))
  }

  /** `visit_For`: the iterable is bound to `iter` once; each step takes
      the next value inside a try whose catch jumps to `break`. */
  function CompileFor(env: Env, reg: Client.Registry, depth: nat, ctx: string,
                      yp: Option<YieldPoint>, s: Stmt): Res<Emitted>
    requires s.For?
    decreases s, 1
  {
    if |s.orelse| > 0 then Err(NotImplementedErr("For else statement not supported"))
    else
      var y :- LoopGuard(yp, "For statement");
      var (loop, y1) := Create(y);
      var (brk, y2) := Create(y1);
      var a :- CompileAssign(env, depth, ctx, "$ctx.local", Some(y2), [Single(Name("iter"))], Computed(s.iter));
      var t :- CompileExpr(env, ctx, s.loopVar);
      var b :- CompileBlock(env, reg, depth, "$ctx.local", a.yp, s.body, 0);
      Ok(Emitted(Many(ForLines(depth, loop, brk, a.lines, ForStep(env, ctx, t), b.lines)), b.yp))
  }

  /** `visit_If`: emitted natively, branches indented. */
  function CompileIf(env: Env, reg: Client.Registry, depth: nat, ctx: string,
                     yp: Option<YieldPoint>, s: Stmt): Res<Emitted>
    requires s.If?
    decreases s, 1
  {
    if yp.Some? && (AllocatesAny(s.body) || AllocatesAny(s.orelse)) then Err(NestedLabels("if block"))
    else
      var t :- CompileExpr(env, ctx, s.cond);
      var b :- CompileBlock(env, reg, depth, ctx, yp, s.body, 2);
      if |s.orelse| == 0 then Ok(Emitted(Many(IfLines(t, b.lines, None)), b.yp))
      else
        var e :- CompileBlock(env, reg, depth, ctx, b.yp, s.orelse, 2);
        Ok(Emitted(Many(IfLines(t, b.lines, Some(e.lines))), e.yp))
  }

  /** `visit_TryExcept`: labels `except` and `continue`; each body
      statement is guarded by a catch that jumps to `except`. */
  function CompileTry(env: Env, reg: Client.Registry, depth: nat, ctx: string,
                      yp: Option<YieldPoint>, s: Stmt): Res<Emitted>
    requires s.Try?
    decreases s, 1
  {
    var y :- LoopGuard(yp, "Try block");
    var (exc, y1) := Create(y);
    var (cont, y2) := Create(y1);
    var b :- CompileTryBody(env, reg, depth, ctx, Some(y2), s.body, exc);
    var h :- CompileHandlers(env, reg, depth, ctx, b.yp, s.handlers);
    Ok(Emitted(Many(TryLines(depth, exc, cont, b.lines, h.lines)), h.yp))
  }

  /** The guarded statements of a try body: a yield statement gets the
      handler-guarded suspension, any other statement is wrapped whole. */
  function CompileTryBody(env: Env, reg: Client.Registry, depth: nat, ctx: string,
                          yp: Option<YieldPoint>, ss: seq<Stmt>, handler: nat): Res<Block>
    decreases ss, 0
  {
    if |ss| == 0 then Ok(Block([], yp))
    else
      var first :- CompileGuarded(env, reg, depth, ctx, yp, ss[0], handler);
      var rest :- CompileTryBody(env, reg, depth, ctx, first.yp, ss[1..], handler);
      Ok(Block(first.lines + rest.lines, rest.yp))
  }

  /** One statement of a try body, guarded so that an exception jumps to
      `handler`: a yield statement keeps its `case` line outside the
      guard, so that resuming there stays possible. */
  function CompileGuarded(env: Env, reg: Client.Registry, depth: nat, ctx: string,
                          yp: Option<YieldPoint>, c: Stmt, handler: nat): Res<Block>
    decreases c, 3
  {
    if c.YieldStmt? then CompileYield(env, depth, ctx, yp, c.result, Some(handler))
    else
      var e :- CompileStmt(env, reg, depth, ctx, yp, c);
      Ok(Block(WrapInTry(depth, e.frag, handler), e.yp))
  }

  /** A try-body statement as the source lowers it: the yield branch
      tests for a bare `Yield` node, which a statement list never holds,
      so every statement is wrapped whole. */
  function TryStmtAsWritten(env: Env, reg: Client.Registry, depth: nat, ctx: string,
                            yp: Option<YieldPoint>, c: Stmt, handler: nat): Res<Block>
  {
    var e :- CompileStmt(env, reg, depth, ctx, yp, c);
    Ok(Block(WrapInTry(depth, e.frag, handler), e.yp))
  }

  function CompileHandlers(env: Env, reg: Client.Registry, depth: nat, ctx: string,
                           yp: Option<YieldPoint>, hs: seq<Handler>): Res<Block>
    decreases hs, 0
  {
    if |hs| == 0 then Ok(Block([], yp))
    else
      var first :- CompileHandler(env, reg, depth, ctx, yp, hs[0]);
      var rest :- CompileHandlers(env, reg, depth, ctx, first.yp, hs[1..]);
      Ok(Block(first.lines + rest.lines, rest.yp))
  }

  /** `visit_ExceptHandler`. */
  function CompileHandler(env: Env, reg: Client.Registry, depth: nat, ctx: string,
                          yp: Option<YieldPoint>, h: Handler): Res<Block>
    decreases h, 1
  {
    if AllocatesAny(h.body) then Err(NestedLabels("except block"))
    else
      var head := HandlerHead(h.typeRepr);
      var b :- CompileBlock(env, reg, depth, ctx, yp, h.body, 2);
      Ok(Block(HandlerLines(head, b.lines), b.yp))
  }

  /** `visit_FunctionDef`: a fresh yield point for the body; the
      enclosing yield point is left as it was. */
  function CompileFunctionDef(env: Env, reg: Client.Registry, depth: nat, ctx: string,
                              yp: Option<YieldPoint>, s: Stmt): Res<Emitted>
    requires s.FunctionDef?
    decreases s, 1
  {
    var b :- CompileBlock(env, reg, depth + 1, "$ctx.local", Some(Fresh()), s.body, 6);
    Ok(Emitted(Many(FunctionLines(Receiver(ctx), s.fname, s.params, depth + 1, b.lines)), yp))
  }

  /** `visit_ClassDef`. */
  function CompileClassDef(env: Env, reg: Client.Registry, depth: nat, ctx: string,
                           yp: Option<YieldPoint>, s: Stmt): Res<Emitted>
    requires s.ClassDef?
    decreases s, 1
  {
    if |s.bases| > 1 then Err(NotImplementedErr("Multiple inheritance not supported"))
    else if |s.bases| == 1 && !s.bases[0].Attribute? then Err(AttributeErr("object has no attribute 'attr'"))
    else if yp.Some? && AllocatesAny(s.body) then Err(NestedLabels("class body"))
    else
      var isScope := |s.bases| == 1 && s.bases[0].attr in reg;
      var b :- CompileBlock(env, reg, depth, if isScope then "$scope" else ctx, yp, s.body, 2);
      var proto :- ClassProto(env, ctx, Receiver(ctx), s.cname, s.bases, isScope);
      Ok(Emitted(Many(ClassOutput(reg, ctx, s, isScope, b.lines, proto)), b.yp))
  }

  /** `visit_Module`: the lines of the top-level statements, joined. */
  function CompileModule(env: Env, reg: Client.Registry, m: Module): Res<string>
  {
    var b :- CompileBlock(env, reg, 0, "", None, m.stmts, 0);
    Ok(Join("\n", RenderAll(b.lines)))
  }

  // ---------------------------------------------------------------------
  // jscompile

  /** `jscompile(obj)`: the text cached on the object, or the
      translation of its parsed source, stored on the object. Returns the
      outcome, the cache afterwards and whether the translator ran. */
  function JsCompile(cache: JsCache.Cache, obj: nat, source: Module, env: Env, reg: Client.Registry)
    : (r: (Res<string>, JsCache.Cache, bool))
    ensures JsCache.Hit(cache, obj) ==> r == (Ok(cache[obj]), cache, false)
    ensures !JsCache.Hit(cache, obj) ==> r.0 == CompileModule(env, reg, source) && r.2
  {
    JsCache.Memo(cache, obj, CompileModule(env, reg, source))
  }

  /** A second `jscompile` of the same object returns the stored text
      without translating again, and changes nothing. */
  lemma JsCompileIdempotent(cache: JsCache.Cache, obj: nat, source: Module, env: Env, reg: Client.Registry)
    requires JsCompile(cache, obj, source, env, reg).0.Ok?
    requires JsCompile(cache, obj, source, env, reg).0.value != ""
    ensures var (r1, c1, _) := JsCompile(cache, obj, source, env, reg);
      JsCompile(c1, obj, source, env, reg) == (r1, c1, false)
  {
    JsCache.MemoIdempotent(cache, obj, CompileModule(env, reg, source));
  }
}
