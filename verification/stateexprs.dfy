/** Expression rendering of the state-machine translator
    (avalon/compiler/compiler.py): names through the module environment,
    and comparison chains. */
module StateExprs {
  import opened Wrappers
  import opened Text
  import opened Syntax
  import opened StateCompiler

  /** A name bound in the module: the session store and the document
      store are renamed, anything else keeps its own name, whatever the
      receiver context. */
  lemma BoundName(env: Env, ctx: string, id: string)
    requires id in env && id != ""
    ensures env[id] == SessionStore ==> NameText(env, ctx, id) == "_session"
    ensures env[id] == ModelRoot ==> NameText(env, ctx, id) == "avalon.model"
    ensures env[id] !in {SessionStore, ModelRoot} ==> NameText(env, ctx, id) == id
  {
  }

  /** An unbound name: the three constants become their JavaScript
      spelling, any other name is read off the receiver context when there
      is one. */
  lemma UnboundName(env: Env, ctx: string, id: string)
    requires id !in env
    ensures id == "None" ==> NameText(env, ctx, id) == "undefined"
    ensures id == "True" ==> NameText(env, ctx, id) == "true"
    ensures id == "False" ==> NameText(env, ctx, id) == "false"
    ensures id !in {"None", "True", "False"} && ctx != "" ==> NameText(env, ctx, id) == ctx + "." + id
    ensures id !in {"None", "True", "False"} && ctx == "" ==> NameText(env, ctx, id) == id
  {
  }

  /** The links of a chained comparison against a reference reading:
      `zip` stops at the shorter list, and link `i` compares operand `i`
      (the leftmost first) with operand `i + 1`. */
  lemma {:induction false} ChainLinks(left: string, syms: seq<string>, rights: seq<string>)
    ensures var parts := ChainParts(left, syms, rights);
      && |parts| == (if |syms| < |rights| then |syms| else |rights|)
      && forall i :: 0 <= i < |parts| ==> parts[i] == ([left] + rights)[i] + " " + syms[i] + " " + rights[i]
    decreases |syms|
  {
    if |syms| > 0 && |rights| > 0 {
      ChainLinks(rights[0], syms[1..], rights[1..]);
      var parts := ChainParts(left, syms, rights);
      var rest := ChainParts(rights[0], syms[1..], rights[1..]);
      assert parts == [left + " " + syms[0] + " " + rights[0]] + rest;
      forall i | 0 <= i < |parts|
        ensures parts[i] == ([left] + rights)[i] + " " + syms[i] + " " + rights[i]
      {
        if i > 0 {
          assert parts[i] == rest[i - 1];
          assert ([rights[0]] + rights[1..])[i - 1] == ([left] + rights)[i];
        }
      }
    }
  }

  /** The comparison table: the operators render through `COMPARE_OP`
      one by one, and a membership test (no entry) is a KeyError. */
  lemma {:induction false} CmpSymbolsTable(ops: seq<CmpOp>)
    ensures CmpSymbols(ops).Err? <==> exists i :: 0 <= i < |ops| && CmpSymbol(ops[i]).None?
    ensures CmpSymbols(ops).Err? ==> CmpSymbols(ops).error.KeyErr?
    ensures CmpSymbols(ops).Ok? ==>
      |CmpSymbols(ops).value| == |ops|
      && forall i :: 0 <= i < |ops| ==> CmpSymbol(ops[i]) == Some(CmpSymbols(ops).value[i])
    decreases |ops|
  {
    if |ops| > 0 {
      CmpSymbolsTable(ops[1..]);
      if CmpSymbol(ops[0]).Some? && CmpSymbols(ops[1..]).Ok? {
        var r := CmpSymbols(ops).value;
        assert r == [CmpSymbol(ops[0]).value] + CmpSymbols(ops[1..]).value;
        forall i | 0 <= i < |ops| ensures CmpSymbol(ops[i]) == Some(r[i]) {
          if i > 0 {
            assert ops[i] == ops[1..][i - 1];
          }
        }
      }
      if CmpSymbols(ops[1..]).Err? {
        var i :| 0 <= i < |ops[1..]| && CmpSymbol(ops[1..][i]).None?;
        assert ops[i + 1] == ops[1..][i];
      }
      if exists i :: 0 <= i < |ops| && CmpSymbol(ops[i]).None? {
        var i :| 0 <= i < |ops| && CmpSymbol(ops[i]).None?;
        if i > 0 {
          assert ops[1..][i - 1] == ops[i];
        }
      }
    }
  }

  /** A chained comparison compiles exactly when its operands do and none
      of its operators is a membership test. */
  lemma CompareCompiles(env: Env, ctx: string, first: Expr, ops: seq<CmpOp>, comps: seq<Expr>)
    requires CompileExpr(env, ctx, first).Ok? && CompileExprs(env, ctx, comps).Ok?
    ensures CompileExpr(env, ctx, Compare(first, ops, comps)).Ok?
            <==> forall i :: 0 <= i < |ops| ==> CmpSymbol(ops[i]).Some?
  {
    CmpSymbolsTable(ops);
  }
}
