/** The earlier Python-to-JavaScript translator (avalon/compiler.py): a
    direct visitor without the state machine. Expressions become one
    string; statements become one string or a list of lines; nested
    bodies are indented by two spaces per level. */
module FlatCompiler {
  import opened Wrappers
  import opened Text
  import opened Syntax
  import opened Lines
  import JsCache

  type Res<T> = Result<T, CompileError>

  /** The translator's inputs besides the tree: the `__name__` of the
      object being compiled, the name to give it (`None` when none was
      supplied), and the names of the registered client scopes. */
  datatype Config = Config(objName: string, rename: Option<string>, scopes: set<string>)

  // ---------------------------------------------------------------------
  // indent / extend on plain text lines

  /** `indent(lines, spaces, level)`: the prefix is `spaces * level`
      spaces, put in front of the string or of every line of the list. */
  function Indent(f: Fragment<string>, spaces: nat, level: nat): (r: Fragment<string>)
    ensures f.One? <==> r.One?
    ensures f.One? ==> r.text == Spaces(spaces * level) + f.text
    ensures f.Many? ==> |r.lines| == |f.lines|
    ensures f.Many? ==> forall i :: 0 <= i < |f.lines| ==> r.lines[i] == Spaces(spaces * level) + f.lines[i]
  {
    match f
    case One(s) => One(Spaces(spaces * level) + s)
    case Many(ls) => Many(Prefix(ls, Spaces(spaces * level)))
  }

  function Prefix(ls: seq<string>, p: string): (r: seq<string>)
    ensures |r| == |ls|
    ensures forall i :: 0 <= i < |ls| ==> r[i] == p + ls[i]
  {
    seq(|ls|, i requires 0 <= i < |ls| => p + ls[i])
  }

  /** `extend(template, lines)`: a list is appended element by element,
      a string as a single line. */
  function ExtendText(tpl: seq<string>, f: Fragment<string>): (r: seq<string>)
    ensures f.One? ==> r == tpl + [f.text]
    ensures f.Many? ==> r == tpl + f.lines
  {
    match f
    case One(s) => tpl + [s]
    case Many(ls) => tpl + ls
  }

  /** The lines a visitor's result contributes to a template. */
  function TextLines(f: Fragment<string>): seq<string>
  {
    ExtendText([], f)
  }

  /** Indenting twice is indenting once by the sum of the prefixes. */
  lemma IndentCompose(f: Fragment<string>, spaces: nat, a: nat, b: nat)
    ensures Indent(Indent(f, spaces, a), spaces, b) == Indent(f, spaces, a + b)
  {
    SpacesAdd(spaces * b, spaces * a);
    assert spaces * (a + b) == spaces * b + spaces * a;
    match f
    case One(s) =>
      assert Spaces(spaces * b) + (Spaces(spaces * a) + s) == Spaces(spaces * (a + b)) + s;
    case Many(ls) =>
      var l := Indent(Indent(f, spaces, a), spaces, b).lines;
      var r := Indent(f, spaces, a + b).lines;
      assert |l| == |r|;
      forall i | 0 <= i < |l| ensures l[i] == r[i] {
        assert l[i] == Spaces(spaces * b) + (Spaces(spaces * a) + ls[i]);
      }
  }

  /** `extend` after `indent` is `indent` after `extend`: every line the
      fragment contributes, and nothing else, is shifted. */
  lemma IndentThenExtend(tpl: seq<string>, f: Fragment<string>, spaces: nat, level: nat)
    ensures ExtendText(tpl, Indent(f, spaces, level)) == tpl + Prefix(TextLines(f), Spaces(spaces * level))
  {
  }

  /** Plain text indentation agrees with the structured indentation of
      the state-machine translator: rendering the shifted lines gives
      the rendered lines with the same prefix. */
  lemma {:induction false} IndentAgreesWithShift(ls: seq<Line>, k: nat)
    ensures RenderAll(IndentLines(ls, k)) == Prefix(RenderAll(ls), Spaces(k))
  {
    var l, r := RenderAll(IndentLines(ls, k)), Prefix(RenderAll(ls), Spaces(k));
    forall i | 0 <= i < |ls| ensures l[i] == r[i] {
      ShiftRender(ls[i], k);
    }
  }

  // ---------------------------------------------------------------------
  // Expressions

  /** `visit_Name`: the three constants become their JavaScript
      spellings; every other identifier passes through. */
  function NameText(id: string): string
  {
    if id == "None" then "undefined"
    else if id == "True" then "true"
    else if id == "False" then "false"
    else id
  }

  /** The name table as data. */
  const NameConstants: map<string, string> := map["None" := "undefined", "True" := "true", "False" := "false"]

  lemma NameTextTable(id: string)
    ensures NameText(id) == if id in NameConstants then NameConstants[id] else id
    ensures id !in NameConstants ==> NameText(id) == id
  {
  }

  /** `visit_List` as written: Python's printed form of the list of the
      element texts, which quotes every element. */
  function ListTextAsWritten(items: seq<string>): string
  {
    PyListRepr(items)
  }

  /** `visit_List` as evidently intended (and as the later translator
      writes it): the element texts comma-separated in brackets. */
  function ListText(items: seq<string>): string
  {
    "[" + Join(", ", items) + "]"
  }

  function Expr(e: Expr): Res<string>
    decreases e, 1
  {
    match e
    case Name(id) => Ok(NameText(id))
    case Num(n) => Ok(IntToString(n))
    case Str(s) => Ok("\"" + EscapeNewlines(s) + "\"")
    case BinOp(l, op, r) =>
      var lt :- Expr(l);
      var sym :- if BinOpSymbol(op).Some? then Ok(BinOpSymbol(op).value) else Err(KeyErr("binary operator"));
      var rt :- Expr(r);
      Ok(lt + " " + sym + " " + rt)
    case UnaryOp(op, x) =>
      var t :- Expr(x);
      Ok(UnarySymbol(op) + "(" + t + ")")
    case Call(func, args) =>
      var ft :- Expr(func);
      var ats :- Exprs(args);
      if ft == "print" then Ok(PrintText(ats)) else Ok(ft + "(" + Join(", ", ats) + ")")
    case Attribute(v, attr, _) =>
      var t :- Expr(v);
      Ok(t + "." + attr)
    case Subscript(v, i) =>
      var vt :- Expr(v);
      var it :- Expr(i);
      Ok(vt + "[" + it + "]")
    case List(es) =>
      var ts :- Exprs(es);
      Ok(ListText(ts))
    case Tuple(es) =>
      var ts :- Exprs(es);
      Ok("[" + Join(", ", ts) + "]")
    case BoolOp(_, _) => Err(NotImplementedErr("BoolOp"))
    case Compare(_, _, _) => Err(NotImplementedErr("Compare"))
    case Dict(_, _) => Err(NotImplementedErr("Dict"))
    case OtherExpr(kind) => Err(NotImplementedErr(kind))
  }

  function Exprs(es: seq<Expr>): (r: Res<seq<string>>)
    ensures r.Ok? ==> |r.value| == |es|
    ensures r.Ok? ==> forall i :: 0 <= i < |es| ==> Expr(es[i]) == Ok(r.value[i])
    ensures r.Err? <==> exists i :: 0 <= i < |es| && Expr(es[i]).Err?
    decreases es, 0
  {
    if |es| == 0 then Ok([])
    else
      var t :- Expr(es[0]);
      var rest :- Exprs(es[1..]);
      assert forall i :: 1 <= i < |es| ==> es[i] == es[1..][i - 1];
      Ok([t] + rest)
  }

  /** `visit_Print`: the values logged in order. */
  function PrintText(values: seq<string>): string
  {
    "console.log(" + Join(", ", values) + ")"
  }

  /** A binary operation renders as `left op right` with the table's
      symbol, which reads back as the operator; an operator missing from
      the table is a KeyError. */
  lemma BinOpRender(l: Expr, op: BinaryOp, r: Expr)
    requires Expr(l).Ok? && Expr(r).Ok?
    ensures BinOpSymbol(op).None? <==> Expr(BinOp(l, op, r)).Err?
    ensures BinOpSymbol(op).None? ==> Expr(BinOp(l, op, r)) == Err(KeyErr("binary operator"))
    ensures BinOpSymbol(op).Some? ==>
      Expr(BinOp(l, op, r)) == Ok(Expr(l).value + " " + BinOpSymbol(op).value + " " + Expr(r).value)
      && ParseBinOp(BinOpSymbol(op).value) == Some(op)
  {
    BinOpSymbolRoundTrip(op);
  }

  /** A unary operation renders as `op(operand)` for every operator. */
  lemma UnaryRender(op: UnaryOperator, x: Expr)
    ensures Expr(x).Ok? ==> Expr(UnaryOp(op, x)) == Ok(UnarySymbol(op) + "(" + Expr(x).value + ")")
    ensures Expr(x).Err? ==> Expr(UnaryOp(op, x)) == Expr(x)
  {
  }

  /** A call to `print` becomes `console.log(args)`; any other callee is
      called directly; the arguments appear in order either way. */
  lemma CallRender(func: Expr, args: seq<Expr>)
    requires Expr(func).Ok? && Exprs(args).Ok?
    ensures var f, a := Expr(func).value, Exprs(args).value;
      && |a| == |args|
      && (forall i :: 0 <= i < |args| ==> Expr(args[i]) == Ok(a[i]))
      && Expr(Call(func, args)) == Ok(if f == "print" then "console.log(" + Join(", ", a) + ")" else f + "(" + Join(", ", a) + ")")
  {
  }

  // ---------------------------------------------------------------------
  // Statements

  /** `var t = v`. */
  function VarLine(target: string, value: string): string
  {
    "var " + target + " = " + value
  }

  /** The lines one assignment target gets: a tuple target first binds
      the value to `_assign`, then each element to its slot. */
  function TargetLines(t: Target, value: Expr): Res<seq<string>>
  {
    match t
    case Single(x) =>
      var tt :- Expr(x);
      var v :- Expr(value);
      Ok([VarLine(tt, v)])
    case Unpack(parts) =>
      var v :- Expr(value);
      var ps :- Exprs(parts);
      Ok(["var _assign = " + v] + SlotLines(ps))
  }

  /** `var t_i = _assign[i]` for each element, in order. */
  function SlotLines(ps: seq<string>): (r: seq<string>)
    ensures |r| == |ps|
    ensures forall i :: 0 <= i < |ps| ==> r[i] == VarLine(ps[i], "_assign[" + NatToString(i) + "]")
  {
    seq(|ps|, i requires 0 <= i < |ps| => VarLine(ps[i], "_assign[" + NatToString(i) + "]"))
  }

  /** `visit_Assign`: the lines of every target, in order. */
  function AssignLines(targets: seq<Target>, value: Expr): Res<seq<string>>
  {
    if |targets| == 0 then Ok([])
    else
      var first :- TargetLines(targets[0], value);
      var rest :- AssignLines(targets[1..], value);
      Ok(first + rest)
  }

  /** How many lines an assignment emits: one per plain target, one more
      than the element count per tuple target. */
  function AssignCount(targets: seq<Target>): nat
  {
    if |targets| == 0 then 0
    else (if targets[0].Single? then 1 else 1 + |targets[0].parts|) + AssignCount(targets[1..])
  }

  /** An assignment of a translatable value to translatable targets
      emits exactly `AssignCount` lines; a single plain target gives
      `var t = v`, and a single tuple target binds `_assign` first and
      then each element to its slot in order. */
  lemma {:induction false} AssignShape(targets: seq<Target>, value: Expr)
    requires Expr(value).Ok?
    requires forall i :: 0 <= i < |targets| ==>
      (targets[i].Single? ==> Expr(targets[i].target).Ok?) && (targets[i].Unpack? ==> Exprs(targets[i].parts).Ok?)
    ensures AssignLines(targets, value).Ok?
    ensures |AssignLines(targets, value).value| == AssignCount(targets)
    ensures |targets| == 1 && targets[0].Single? ==>
      AssignLines(targets, value).value == [VarLine(Expr(targets[0].target).value, Expr(value).value)]
    ensures |targets| == 1 && targets[0].Unpack? ==>
      var ps := Exprs(targets[0].parts).value;
      var r := AssignLines(targets, value).value;
      && r[0] == "var _assign = " + Expr(value).value
      && forall i :: 0 <= i < |ps| ==> r[i + 1] == VarLine(ps[i], "_assign[" + NatToString(i) + "]")
    decreases |targets|
  {
    if |targets| > 0 {
      assert forall i :: 0 <= i < |targets[1..]| ==> targets[1..][i] == targets[i + 1];
      AssignShape(targets[1..], value);
      if |targets| == 1 {
        assert targets[1..] == [];
      }
    }
  }

  /** `visit_Return`. */
  function ReturnText(value: Option<Expr>): Res<string>
  {
    if value.Some? then
      var t :- Expr(value.value);
      Ok("return " + t)
    else Ok("return")
  }

  /** The name a function is emitted under: the supplied name when one
      was given (and is non-empty) and the compiled object is this
      function, its own name otherwise. */
  function FunctionName(cfg: Config, fname: string): (n: string)
    ensures cfg.rename.Some? && cfg.rename.value != "" && cfg.objName == fname ==> n == cfg.rename.value
    ensures !(cfg.rename.Some? && cfg.rename.value != "" && cfg.objName == fname) ==> n == fname
  {
    if cfg.rename.Some? && cfg.rename.value != "" && cfg.objName == fname then cfg.rename.value else fname
  }

  /** `{ctx}.{name} = function {name}({params}) {`. */
  function FunctionHead(ctx: string, n: string, params: seq<string>): string
  {
    ctx + "." + n + " = function " + n + "(" + Join(", ", params) + ") {"
  }

  /** Whether a class is a client scope, and the name it is installed
      under: a scope class takes the last component of its base. */
  function ClassName(cfg: Config, cname: string, bases: seq<Expr>): Res<string>
  {
    if cname !in cfg.scopes then Ok(cname)
    else if |bases| == 0 then Err(IndexErr("list index out of range"))
    else
      var bt :- Expr(bases[0]);
      Ok(LastComponent(bt))
  }

  /** The lines after a class body: the closing brace, the injection
      list and, for a plain class with a base, the prototype link. */
  function ClassTail(ctx: string, cname: string, classname: string, inject: seq<string>, proto: Option<string>): seq<string>
  {
    ["}", ctx + "." + classname + ".$inject = " + JsonStringList(inject)]
    + (if proto.Some? then [ctx + "." + cname + ".prototype = new " + proto.value + "()"] else [])
  }

  function Stmt(cfg: Config, ctx: string, s: Stmt): Res<Fragment<string>>
    decreases s, 1
  {
    match s
    case ExprStmt(e) =>
      var t :- Expr(e);
      Ok(One(t))
    case Return(v) =>
      var t :- ReturnText(v);
      Ok(One(t))
    case Print(vs) =>
      var ts :- Exprs(vs);
      Ok(One(PrintText(ts)))
    case Pass => Ok(Many(["// pass"]))
    case Assign(targets, rhs) =>
      if rhs.Yielded? then Err(NotImplementedErr("Yield"))
      else
        var ls :- AssignLines(targets, rhs.expr);
        Ok(Many(ls))
    case FunctionDef(fname, params, body) =>
      var n := FunctionName(cfg, fname);
      var b :- Body(cfg, "this", body);
      Ok(Many([FunctionHead(ctx, n, params)] + b + ["}"]))
    case ClassDef(cname, bases, body) =>
      if |bases| > 1 then Err(NotImplementedErr("Multiple inheritance not implemented"))
      else
        var isScope := cname in cfg.scopes;
        var inject := if isScope then ["$scope"] else [];
        var classname :- ClassName(cfg, cname, bases);
        var b :- Body(cfg, if isScope then "$scope" else "this", body);
        var proto :- if !isScope && |bases| == 1 then
                       var bt :- Expr(bases[0]); Ok(Some(bt))
                     else Ok(None);
        Ok(Many([ctx + "." + classname + " = function " + cname + "(" + Join(", ", inject) + ") {"]
                + b + ClassTail(ctx, cname, classname, inject, proto)))
    case Try(body, handlers) =>
      var b :- Body(cfg, "this", body);
      var hs :- Handlers(cfg, handlers);
      Ok(Many(["try {"] + b + ["} catch(__exception__) {"] + hs + ["}"]))
    case YieldStmt(_) => Err(NotImplementedErr("Yield"))
    case AugAssign(_, _, _) => Err(NotImplementedErr("AugAssign"))
    case For(_, _, _, _) => Err(NotImplementedErr("For"))
    case While(_, _, _) => Err(NotImplementedErr("While"))
    case If(_, _, _) => Err(NotImplementedErr("If"))
    case Import => Err(NotImplementedErr("Import"))
    case ImportFrom => Err(NotImplementedErr("ImportFrom"))
    case Break => Err(NotImplementedErr("Break"))
    case Continue => Err(NotImplementedErr("Continue"))
    case OtherStmt(what) => Err(NotImplementedErr(what))
  }

  /** `for c in body: extend(template, indent(self.visit(c)))`: every
      statement's lines, indented by two spaces, in order. The statements
      take `ctx` as their context. */
  function Body(cfg: Config, ctx: string, ss: seq<Stmt>): Res<seq<string>>
    decreases ss, 0
  {
    if |ss| == 0 then Ok([])
    else
      var f :- Stmt(cfg, ctx, ss[0]);
      var rest :- Body(cfg, ctx, ss[1..]);
      Ok(ExtendText([], Indent(f, 2, 1)) + rest)
  }

  function Handlers(cfg: Config, hs: seq<Handler>): Res<seq<string>>
    decreases hs, 0
  {
    if |hs| == 0 then Ok([])
    else
      var first :- Handler(cfg, hs[0]);
      var rest :- Handlers(cfg, hs[1..]);
      Ok(Prefix(first, Spaces(2)) + rest)
  }

  /** `visit_ExceptHandler`, with the corrected head `Lines.HandlerHead`:
      as written, the typed head lacks its closing `) {`, exactly as in
      the later translator (`Lines.HandlerHeadAsWritten`). */
  function Handler(cfg: Config, h: Handler): Res<seq<string>>
    decreases h, 1
  {
    var b :- Body(cfg, "this", h.body);
    Ok([HandlerHead(h.typeRepr)] + b + [Spaces(2) + "__exception__ = undefined", "}"])
  }

  // ---------------------------------------------------------------------
  // Module

  /** `template.extend(self.visit(child) or [])` as written: a list adds
      its lines, but a string adds each of its characters as a line. */
  function AssembleAsWritten(frags: seq<Fragment<string>>): seq<string>
  {
    if |frags| == 0 then []
    else
      var f := frags[0];
      (match f
       case One(s) => seq(|s|, i requires 0 <= i < |s| => [s[i]])
       case Many(ls) => ls) + AssembleAsWritten(frags[1..])
  }

  /** As evidently intended (and as the later translator writes it):
      every statement's result goes through `extend`. */
  function Assemble(frags: seq<Fragment<string>>): (r: seq<string>)
  {
    if |frags| == 0 then [] else TextLines(frags[0]) + Assemble(frags[1..])
  }

  function StmtFrags(cfg: Config, ss: seq<Stmt>): (r: Res<seq<Fragment<string>>>)
    ensures r.Ok? ==> |r.value| == |ss|
    ensures r.Ok? ==> forall i :: 0 <= i < |ss| ==> Stmt(cfg, "this", ss[i]) == Ok(r.value[i])
  {
    if |ss| == 0 then Ok([])
    else
      var f :- Stmt(cfg, "this", ss[0]);
      var rest :- StmtFrags(cfg, ss[1..]);
      assert forall i :: 1 <= i < |ss| ==> ss[i] == ss[1..][i - 1];
      Ok([f] + rest)
  }

  /** `visit_Module`: the top-level statements' lines joined by newlines. */
  function CompileModule(cfg: Config, m: Module): Res<string>
  {
    var frags :- StmtFrags(cfg, m.stmts);
    Ok(Join("\n", Assemble(frags)))
  }

  function CompileModuleAsWritten(cfg: Config, m: Module): Res<string>
  {
    var frags :- StmtFrags(cfg, m.stmts);
    Ok(Join("\n", AssembleAsWritten(frags)))
  }

  /** Every statement contributes its lines, unchanged and in order: a
      string as exactly one line. */
  lemma {:induction false} AssembleLines(frags: seq<Fragment<string>>)
    ensures |Assemble(frags)| == Sum(frags)
    ensures |frags| > 0 && frags[0].One? ==> Assemble(frags)[0] == frags[0].text
    ensures forall i :: 0 <= i < |frags| && frags[i].One? ==> frags[i].text in Assemble(frags)
    ensures forall i :: 0 <= i < |frags| && frags[i].Many? ==> forall j :: 0 <= j < |frags[i].lines| ==> frags[i].lines[j] in Assemble(frags)
    decreases |frags|
  {
    if |frags| > 0 {
      AssembleLines(frags[1..]);
      var r := Assemble(frags);
      var head := TextLines(frags[0]);
      assert r == head + Assemble(frags[1..]);
      forall i | 1 <= i < |frags| ensures frags[i] == frags[1..][i - 1] { }
      if frags[0].Many? {
        forall j | 0 <= j < |frags[0].lines| ensures frags[0].lines[j] in r {
          assert r[j] == head[j];
        }
      }
    }
  }

  /** The number of lines the fragments stand for. */
  function Sum(frags: seq<Fragment<string>>): nat
  {
    if |frags| == 0 then 0 else (if frags[0].One? then 1 else |frags[0].lines|) + Sum(frags[1..])
  }

  lemma StmtFragsSingle(cfg: Config, s: Stmt)
    requires Stmt(cfg, "this", s).Ok?
    ensures StmtFrags(cfg, [s]) == Ok([Stmt(cfg, "this", s).value])
  {
    assert [s][0] == s;
    assert [s][1..] == [];
    assert StmtFrags(cfg, [s][1..]) == Ok([]);
    var f := Stmt(cfg, "this", s).value;
    assert [f] + [] == [f];
  }

  /** Counter-example: a module holding the expression statement `f()`
      comes out as one character per line. */
  lemma ModuleCharsPerLine()
    ensures var m := Module([ExprStmt(Call(Name("f"), []))]);
      var cfg := Config("", None, {});
      && CompileModuleAsWritten(cfg, m) == Ok("f\n(\n)")
      && CompileModule(cfg, m) == Ok("f()")
  {
    var m := Module([ExprStmt(Call(Name("f"), []))]);
    var cfg := Config("", None, {});
    assert Expr(Name("f")) == Ok("f");
    assert Exprs([]) == Ok([]);
    assert Join(", ", []) == "";
    assert "f" != "print";
    assert "f" + "(" + "" + ")" == "f()";
    assert Expr(Call(Name("f"), [])) == Ok("f()");
    assert Stmt(cfg, "this", ExprStmt(Call(Name("f"), []))) == Ok(One("f()"));
    StmtFragsSingle(cfg, ExprStmt(Call(Name("f"), [])));
    var chars := seq(3, i requires 0 <= i < 3 => ["f()"[i]]);
    assert chars == ["f", "(", ")"];
    assert AssembleAsWritten([One("f()")]) == ["f", "(", ")"];
    assert Assemble([One("f()")]) == ["f()"];
    assert Join("\n", ["(", ")"]) == "(" + "\n" + Join("\n", [")"]);
    assert Join("\n", ["f", "(", ")"]) == "f" + "\n" + Join("\n", ["(", ")"]);
    assert "f" + "\n" + ("(" + "\n" + ")") == "f\n(\n)";
  }

  /** Counter-example: the list `[1, x]` becomes a list of two string
      literals; the corrected form keeps the elements. */
  lemma ListQuoted()
    ensures ListTextAsWritten(["1", "x"]) == "['1', 'x']"
    ensures ListText(["1", "x"]) == "[1, x]"
  {
    assert ReprChar('1', '\'') == "1" && ReprChar('x', '\'') == "x";
    assert ReprBody("1", '\'') == "1" + ReprBody("", '\'');
    assert ReprBody("x", '\'') == "x" + ReprBody("", '\'');
    assert PyRepr("1") == "'1'" && PyRepr("x") == "'x'";
    assert ReprAll(["x"]) == ["'x'"];
    assert ReprAll(["1", "x"]) == ["'1'"] + ReprAll(["x"]);
    assert Join(", ", ["'1'", "'x'"]) == "'1'" + ", " + "'x'";
    assert Join(", ", ["1", "x"]) == "1" + ", " + "x";
  }

  /** The corrected list form adds nothing but brackets and separators:
      it renders exactly like a tuple of the same elements. */
  lemma ListLikeTuple(es: seq<Expr>)
    ensures Expr(List(es)) == Expr(Tuple(es))
  {
  }

  // ---------------------------------------------------------------------
  // Statement-level properties

  /** A class with more than one base fails before anything is emitted. */
  lemma MultipleBasesFail(cfg: Config, ctx: string, cname: string, bases: seq<Expr>, body: seq<Stmt>)
    requires |bases| > 1
    ensures Stmt(cfg, ctx, ClassDef(cname, bases, body)) == Err(NotImplementedErr("Multiple inheritance not implemented"))
  {
  }

  /** A plain class with one base ends by linking its prototype to a new
      instance of the base; a plain class without base, or a scope class,
      has no such line. */
  lemma ClassPrototype(cfg: Config, ctx: string, cname: string, bases: seq<Expr>, body: seq<Stmt>)
    requires |bases| <= 1
    requires Stmt(cfg, ctx, ClassDef(cname, bases, body)).Ok?
    ensures var ls := Stmt(cfg, ctx, ClassDef(cname, bases, body)).value.lines;
      && |ls| >= 3
      && ls[0] == ctx + "." + ClassName(cfg, cname, bases).value + " = function " + cname
                  + (if cname in cfg.scopes then "($scope) {" else "() {")
      && (cname !in cfg.scopes && |bases| == 1 ==>
            Expr(bases[0]).Ok? && ls[|ls| - 1] == ctx + "." + cname + ".prototype = new " + Expr(bases[0]).value + "()")
      && (cname in cfg.scopes || |bases| == 0 ==>
            ls[|ls| - 1] == ctx + "." + ClassName(cfg, cname, bases).value + ".$inject = "
                            + (if cname in cfg.scopes then "[\"$scope\"]" else "[]"))
  {
    var isScope := cname in cfg.scopes;
    var inject := if isScope then ["$scope"] else [];
    if isScope {
      assert Join(", ", inject) == "$scope";
      assert QuoteAll(inject) == ["\"" + "$scope" + "\""] + QuoteAll([]);
    }
  }

  /** A function is emitted under the supplied name exactly when a name
      was supplied and the compiled object is that function; its body is
      indented by two spaces between the head and a closing brace. */
  lemma FunctionRename(cfg: Config, ctx: string, fname: string, params: seq<string>, body: seq<Stmt>)
    requires Body(cfg, "this", body).Ok?
    ensures var ls := Stmt(cfg, ctx, FunctionDef(fname, params, body)).value.lines;
      var n := if cfg.rename.Some? && cfg.rename.value != "" && cfg.objName == fname then cfg.rename.value else fname;
      && Stmt(cfg, ctx, FunctionDef(fname, params, body)).Ok?
      && ls[0] == ctx + "." + n + " = function " + n + "(" + Join(", ", params) + ") {"
      && ls[1..|ls| - 1] == Body(cfg, "this", body).value
      && ls[|ls| - 1] == "}"
  {
  }

  /** Every line of a translated body starts with the two-space indent. */
  lemma {:induction false} BodyIndented(cfg: Config, ctx: string, ss: seq<Stmt>)
    requires Body(cfg, ctx, ss).Ok?
    ensures forall i :: 0 <= i < |Body(cfg, ctx, ss).value| ==> "  " <= Body(cfg, ctx, ss).value[i]
    decreases |ss|
  {
    if |ss| > 0 {
      var f := Stmt(cfg, ctx, ss[0]).value;
      BodyIndented(cfg, ctx, ss[1..]);
      var head := ExtendText([], Indent(f, 2, 1));
      assert Spaces(2) == "  ";
      forall i | 0 <= i < |head| ensures "  " <= head[i] {
        assert head[i] == TextLines(Indent(f, 2, 1))[i];
      }
      var r := Body(cfg, ctx, ss).value;
      assert r == head + Body(cfg, ctx, ss[1..]).value;
      forall i | 0 <= i < |r| ensures "  " <= r[i] {
        if i >= |head| {
          assert r[i] == Body(cfg, ctx, ss[1..]).value[i - |head|];
        }
      }
    }
  }

  /** Statement kinds the earlier translator has no visitor for are
      rejected. */
  lemma UnsupportedStatements(cfg: Config, ctx: string, s: Stmt)
    requires s.While? || s.For? || s.If? || s.AugAssign? || s.YieldStmt? || s.Break? || s.Continue?
             || s.Import? || s.ImportFrom? || s.OtherStmt?
    ensures Stmt(cfg, ctx, s).Err? && Stmt(cfg, ctx, s).error.NotImplementedErr?
  {
  }

  // ---------------------------------------------------------------------
  // jscompile

  /** `jscompile(obj, name)`: the text cached on the object, or the
      translation of its parsed source under the object's name and the
      supplied one. */
  function JsCompile(cache: JsCache.Cache, obj: nat, source: Module, cfg: Config)
    : (r: (Res<string>, JsCache.Cache, bool))
    ensures JsCache.Hit(cache, obj) ==> r == (Ok(cache[obj]), cache, false)
    ensures !JsCache.Hit(cache, obj) ==> r.0 == CompileModule(cfg, source) && r.2
  {
    JsCache.Memo(cache, obj, CompileModule(cfg, source))
  }

  /** A repeated `jscompile` returns the same text and changes nothing. */
  lemma JsCompileIdempotent(cache: JsCache.Cache, obj: nat, source: Module, cfg: Config)
    requires JsCompile(cache, obj, source, cfg).0.Ok?
    ensures var (r1, c1, _) := JsCompile(cache, obj, source, cfg);
      var (r2, c2, _) := JsCompile(c1, obj, source, cfg);
      r2 == r1 && c2 == c1
  {
    JsCache.MemoIdempotent(cache, obj, CompileModule(cfg, source));
  }
}
