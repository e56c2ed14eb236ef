# avalon's Python-to-JavaScript translator, modelled in Dafny

avalon ships Python functions and classes to the browser. It translates
their syntax trees into JavaScript.

The core is the state-machine translator `JSCompiler` in
`avalon/compiler/compiler.py`. Each Python function becomes a JavaScript
function whose body is a `while (true) switch($ctx.next_state)` dispatcher.
A per-function `YieldPoint` counter hands out the `case` labels:

- `while`, `for`, `try/except` and `yield` are lowered to labelled jumps
  and suspensions;
- `if`, assignments and expressions are emitted as inline text;
- unsupported node kinds and multiple bases are errors;
- `jscompile` memoises the text on the compiled object.

Beside it, the model covers:

- the earlier flat translator `avalon/compiler.py`;
- the runtime shims of `avalon/compiler/builtins.py` (`range`, `getattr`,
  `getitem`, `setattr`, `setitem`, `bool`);
- the generator driver and `object.toString` of `avalon/compiler/types.py`;
- the exception base of `avalon/compiler/exceptions.py`;
- the client runtime of `avalon/client.py`: the scope registry built by
  `ScopeType`, the `event` decorator, `Promise` and the `task` trampoline.

## Layout

| file | module | what it holds |
|---|---|---|
| wrappers.dfy | Wrappers | `Option`, `Result` and the Python exceptions a translation can raise |
| text.dfy | Text | spaces, `join`, decimal rendering of labels and its parser |
| syntax.dfy | Syntax | the Python syntax tree the translators read, and the operator tables |
| yieldpoints.dfy | YieldPoints | `YieldPoint.create` |
| lines.dfy | Lines | the output line (text, `case n:`, jump, suspension), rendering, `indent`, label multisets, handler heads |
| statecompiler.dfy | StateCompiler | `JSCompiler` of `avalon/compiler/compiler.py`, statement by statement, and `jscompile`, with the corrections listed under Findings |
| labels.dfy | LabelTheory | per construct: the exact output shape, and the label invariant it keeps |
| switchlevel.dfy | SwitchLevel | every `case` line a translated body defines sits directly in the `switch` |
| dispatcher.dfy | Dispatcher | the dispatcher theorem for a whole function, and the refused inputs |
| stateexprs.dfy | StateExprs | name lookup and chained comparisons |
| compilerfindings.dfy | CompilerFindings | where `avalon/compiler/compiler.py` as written departs from its evident intent |
| flatcompiler.dfy | FlatCompiler | the flat translator of `avalon/compiler.py` |
| agreement.dfy | Agreement | where the flat and the state-machine translators give the same text |
| jscache.dfy | JsCache | the `__js__` memo shared by both translators |
| jsvalues.dfy | JsValues | JavaScript values as the runtime shims see them |
| builtins.dfy | Builtins | `avalon/compiler/builtins.py` |
| generators.dfy | Generators | `avalon/compiler/types.py` |
| exceptions.dfy | Exceptions | `avalon/compiler/exceptions.py` |
| client.dfy | Client | `avalon/client.py` |

### How the translator output is modelled

The state-machine translator produces `Line(pad, body)` values. A body is
one of:

- plain text;
- `Case(tag, n)`, rendered `case n:`;
- `Jump(tag, n, trail)`, rendered `$ctx.next_state = n; continue;`;
- `SetState(tag, n)`, the assignment that precedes a suspension.

`Render` gives the text of a line. The `tag` is the depth of the
enclosing function, so the labels of nested functions are kept apart.
Nested functions restart their labels at 1. Rendering ignores the tag.

`StateCompiler` is the CORRECTED translator: where `compiler.py` departs
from its evident intent (see Findings), it follows the intent, and the code
as written is modelled beside it: in `CompilerFindings`, in the
`AsWritten` members of `StateCompiler` (`LoopGuardAsWritten`,
`ForStepAsWritten`, `EventLinesAsWritten`, `ClassNameAsWritten`) and in
`Lines.HandlerHeadAsWritten`. The corrections are:

- `LoopGuard`: a loop or `try` outside a function is the SyntaxError;
- `ForStep`: the loop variable is assigned under the name the body reads,
  and the iterator is read under the name it was bound to (the module's
  own name when the module binds `iter`);
- `CompileGuarded` and `GuardedSuspend`: a `yield` in a `try` body is
  suspended with its `case` line outside the guard. Its three catch lines
  are emitted as three lines; the source passes them to `extend` as a
  tuple, which `extend` appends as one element;
- `Lines.HandlerHead`: the typed handler head is closed with `) {`;
- `ClassName`: a class with a plain base is stored under its own name;
- `EventLines`: one listener per tagged member;
- `NestedLabels`: a label-allocating statement inside an `if` branch, an
  `except` body or a class body of a function is refused (NotImplementedError),
  where the source would put its `case` line inside that block.

Elsewhere the text is the text the source emits. In the flat translator,
`ListText` and `AssembleLines` are the corrected list display and module
assembly, and `Handler` uses the corrected `Lines.HandlerHead`;
`ListTextAsWritten`, `ModuleCharsPerLine` and `Lines.HandlerHeadAsWritten`
model the source. In the runtime, `Exceptions.Repr` is the corrected repr
(the class name, a colon, the message); `Builtins.ReprAsWritten` models the
source's, which reads a `__name__` no instance has.

`Cases(ls, d)` is the multiset of labels defined at depth `d`.
`Targets(ls, d)` is the set of labels jumped to at depth `d`.
`CasesAt(ls, d, p)` says that every `case` line of depth `d` has padding `p`.
The translator indents every nested block, so padding measures nesting.
The dispatcher theorem is `Dispatcher.FunctionDispatcher`. For a function
whose body keeps every label visible, the generated `switch` has:

- case lines that are exactly the entry state `0` and the labels `1 .. n`
  the function's yield point handed out, each once;
- every case line directly in the `switch`, at the padding of `case 0:`,
  never inside an `if`, a handler or a class body;
- jumps only to cases it defines.

## Model

| member | source | states |
|---|---|---|
| YieldPoints.Create | avalon/compiler/compiler.py:21-27 | `create` returns the old count plus one, which is at least 1, and the new count equals the label returned |
| YieldPoints.CreateManyLabels | avalon/compiler/compiler.py:21-27 | `k` successive `create` calls return `count+1 .. count+k`, strictly increasing and never the entry state 0 |
| StateCompiler.Lookup | avalon/compiler/compiler.py:89-97 | an unbound module name gives nothing; the session store gives `_session`; the document-store root gives `avalon.model`; any other bound name gives itself |
| StateExprs.BoundName | avalon/compiler/compiler.py:493-496 | a bound name renders as its lookup, whatever the receiver context |
| StateExprs.UnboundName | avalon/compiler/compiler.py:497-507 | `None`/`True`/`False` render as `undefined`/`true`/`false`; any other unbound name is read off the receiver context when there is one, else renders as itself |
| StateExprs.CmpSymbolsTable | avalon/compiler/compiler.py:56-65 | the comparison operators map pointwise through the fixed table; the map fails, with KeyError, exactly when some operator (a membership test) has no entry |
| StateExprs.ChainLinks | avalon/compiler/compiler.py:440-449 | a chained comparison has one link per operator, cut at the shorter list as `zip` does; link `i` compares operand `i` with operand `i+1` |
| StateExprs.CompareCompiles | avalon/compiler/compiler.py:440-449 | with translatable operands, a comparison translates exactly when every operator has a table entry |
| StateCompiler.LoopGuard | avalon/compiler/compiler.py:289-290 | corrected guard, intended for `while`, `for` and `try` alike: a loop or `try` gets the enclosing yield point exactly when there is one; otherwise it is the SyntaxError naming the statement |
| StateCompiler.LoopGuardAsWritten | avalon/compiler/compiler.py:254-255 | the guard as written: with a yield point it passes it on; without one it fails with AttributeError, not SyntaxError |
| StateCompiler.EventLines | avalon/compiler/compiler.py:171-178 | corrected: one listener per registered event, in order; listener `i` binds event `i`'s name and selector to its handler method |
| StateCompiler.ClassProto | avalon/compiler/compiler.py:209-211 | the prototype link is plain text, present only for a class with one base that is not a scope |
| StateCompiler.JsCompile | avalon/compiler/compiler.py:558-562 | a stored non-empty `__js__` is returned unchanged without translating; otherwise the module is translated |
| StateCompiler.JsCompileIdempotent | avalon/compiler/compiler.py:558-562 | after a successful non-empty translation, a second call returns the same text and cache and does not translate again |
| LabelTheory.YieldLabels | avalon/compiler/compiler.py:410-437 | `yield` needs a yield point. It takes the next label `n` and defines `case n:` once. It jumps only to `n`, or also to the handler label inside a guarded body |
| LabelTheory.AssignLabels | avalon/compiler/compiler.py:216-241 | an assignment defines labels exactly when its value is a `yield`; its labels and jumps stay in the range the yield point handed out |
| LabelTheory.WhileLabels | avalon/compiler/compiler.py:286-310 | the `case` lines of a `while` define only labels handed out while translating it, each at most once, and all of them when its body keeps its labels visible; every jump lands in that range |
| LabelTheory.ForLabels | avalon/compiler/compiler.py:251-283 | the `case` lines of a `for` define only labels handed out while translating it, each at most once, and all of them when its body keeps its labels visible; every jump lands in that range |
| LabelTheory.IfLabels | avalon/compiler/compiler.py:318-330 | an `if` defines exactly its branches' labels, each once, and jumps only inside that range; inside a function (corrected) that range is empty and the yield point is unchanged |
| LabelTheory.TryLabels | avalon/compiler/compiler.py:333-362 | the `case` lines of a `try` define only labels handed out while translating it, each at most once, and all of them when its body keeps its labels visible; every jump lands in that range |
| LabelTheory.TryBodyLabels | avalon/compiler/compiler.py:342-351 | every guarded body statement jumps only to its own labels or to the except label |
| LabelTheory.GuardedLabels | avalon/compiler/compiler.py:342-351 | corrected lowering of a `try` body: a guarded `yield` keeps its own `case` line visible; any other guarded statement hides nothing it does not allocate |
| LabelTheory.HandlersLabels | avalon/compiler/compiler.py:358-359 | the handlers together define exactly the labels handed out while translating them, and jump only inside that range; with the corrected refusal that range is empty |
| LabelTheory.HandlerLabels | avalon/compiler/compiler.py:522-535 | one handler (corrected head) defines exactly the labels its body handed out and jumps only inside that range; with the corrected refusal that range is empty |
| LabelTheory.FunctionDefLabels | avalon/compiler/compiler.py:118-144 | a nested function defines no label of the enclosing dispatcher, jumps to none of them, and leaves its yield point unchanged |
| LabelTheory.ClassDefLabels | avalon/compiler/compiler.py:147-213 | a class defines exactly its body's labels, each once, and jumps only inside that range; inside a function (corrected) that range is empty |
| LabelTheory.StmtLabels | avalon/compiler/compiler.py:75-87 | every statement keeps the label invariant: its cases lie in the range its yield point handed out (all of them when visible), its jumps stay inside it, and nothing is defined when it allocates nothing |
| LabelTheory.BlockLabels | avalon/compiler/compiler.py:134-135 | a statement sequence keeps the label invariant, threading one yield point through its statements |
| Dispatcher.HeaderLabels | avalon/compiler/compiler.py:124-131 | a function's opening lines define the entry state 0 and nothing else |
| Dispatcher.FooterLabels | avalon/compiler/compiler.py:137-143 | the closing lines (`default: return;` and braces) carry no state |
| Dispatcher.FunctionLinesDispatcher | avalon/compiler/compiler.py:124-143 | a body labelled exactly over `1 .. n`, with its cases at the switch's padding, gives a dispatcher whose cases are `0` and `1 .. n`, each once and each directly in the `switch`, and whose jumps land on those cases |
| Dispatcher.FunctionDispatcher | avalon/compiler/compiler.py:118-144 | a function the corrected translator accepts, with visible labels, yields a well-formed dispatcher: cases `0` and the labels its own yield point handed out, each once and each directly in the `switch`, and jumps only to those; the enclosing yield point is untouched |
| SwitchLevel.StmtAt | avalon/compiler/compiler.py:75-87 | every `case` line of a translated statement with visible labels is at the statement's own padding, outside any block the statement opens |
| SwitchLevel.BlockAt | avalon/compiler/compiler.py:134-135 | every `case` line of a translated block sits at the block's padding |
| SwitchLevel.WhileAt | avalon/compiler/compiler.py:286-310 | the `case` lines of a `while` (its two labels and its body's) are at the loop's own padding |
| SwitchLevel.ForAt | avalon/compiler/compiler.py:251-283 | the `case` lines of a `for` are at the loop's own padding |
| SwitchLevel.TryAt | avalon/compiler/compiler.py:333-362 | the `case` lines of a `try` (its two labels and its guarded body's) are at the statement's own padding |
| SwitchLevel.TryBodyAt | avalon/compiler/compiler.py:342-351 | the corrected guarded body puts each `case` line outside the guard, at the statement's padding |
| SwitchLevel.HandlersAt | avalon/compiler/compiler.py:521-535 | accepted handlers hold no `case` line at all |
| SwitchLevel.SuspensionAt | avalon/compiler/compiler.py:410-437 | the `case` line of a suspension is unindented within it |
| Dispatcher.ModuleHasNoStates | avalon/compiler/compiler.py:103-107 | top-level code has no yield point: it defines no state and jumps to none |
| Dispatcher.LoopElseRefused | avalon/compiler/compiler.py:251-290 | `for` or `while` with an `else` branch is NotImplementedError |
| Dispatcher.LoweredOutsideFunction | avalon/compiler/compiler.py:286-290 | corrected: a `while`, `for` or `try` outside every function is a SyntaxError, as the guards at lines 254-255, 289-290 and 336-337 intend |
| Dispatcher.YieldOutsideFunction | avalon/compiler/compiler.py:410-412 | a `yield` outside every function, as a statement or an assigned value, is the SyntaxError "Yield not inside a function block" |
| Dispatcher.UnsupportedStatement | avalon/compiler/compiler.py:99-100 | `break`, `continue` and every statement kind without a visitor are NotImplementedError |
| Dispatcher.MultipleInheritanceRefused | avalon/compiler/compiler.py:147-149 | a class with two or more bases is exactly the NotImplementedError "Multiple inheritance not supported" |
| CompilerFindings.GuardRaisesWrongError | avalon/compiler/compiler.py:254-255 | outside a function, the intended guard gives the SyntaxError; the guard as written gives a different error |
| CompilerFindings.ForTargetPrefixedTwice | avalon/compiler/compiler.py:269-270 | the loop variable visits to `$ctx.local.x`, so the step as written assigns `$ctx.local.$ctx.local.x`, a different name |
| CompilerFindings.IterShadowed | avalon/compiler/compiler.py:261-269 | when the module binds `iter`, the iterable is stored under the module's name, never `$ctx.local.iter`, which the step as written reads; the corrected step reads the name the iterable was stored under |
| CompilerFindings.IterBinding | avalon/compiler/compiler.py:261-264 | the iterable is stored in `$assign`, then bound to `iter` under `$ctx.local` without a `var` line |
| CompilerFindings.ForStepAssignsLoopVariable | avalon/compiler/compiler.py:258-274 | in a function body, the corrected step assigns the loop variable under the name the body reads it by, from the iterator the loop bound |
| CompilerFindings.EventKeysSpread | avalon/compiler/compiler.py:178 | as written, listeners come from the characters of the handler name: a two-letter name is an IndexError and `save` becomes event `s` on `a` calling `v`; the corrected listener uses the recorded event |
| CompilerFindings.ListenersFromMembers | avalon/client.py:25-30 | each corrected listener calls a class member that the `event` decorator tagged with that listener's event and selector |
| CompilerFindings.MemberGetsListener | avalon/client.py:25-30 | every member the `event` decorator tagged gets its corrected listener |
| CompilerFindings.WrappedYield | avalon/compiler/compiler.py:342-351 | as written, a `yield` in a try body takes a label but defines no `case` line |
| CompilerFindings.YieldInTryLosesLabel | avalon/compiler/compiler.py:342-351 | as written, the label of a `yield` in a try body is never defined; the corrected lowering defines exactly that label, with the same yield point afterwards |
| CompilerFindings.YieldInIfNestsCase | avalon/compiler/compiler.py:318-330 | as written, `if c: yield v` in a function emits its `case` line inside the `if (c) {` block, two spaces in: not a case of the `switch` |
| CompilerFindings.NestedLabelsRefused | avalon/compiler/compiler.py:318-330 | corrected: in a function, an `if` whose branches, an `except` body, or a class body that would hand out a label is the NotImplementedError naming the block |
| CompilerFindings.PlainBaseRenamed | avalon/compiler/compiler.py:154-160 | as written, a class with a plain base is stored under the base's attribute name; the corrected name is the class's own |
| CompilerFindings.ClassStoredWhereLinked | avalon/compiler/compiler.py:163-211 | with the corrected name, a class with a plain base is stored under the very name its prototype link is set on |
| Lines.CaseRenderInjective | avalon/compiler/compiler.py:436 | two rendered `case` lines are equal only for the same label and padding |
| Lines.HandlerHeadBalanced | avalon/compiler/compiler.py:522-527 | the corrected handler head opens one brace and leaves parentheses balanced, typed or not |
| Lines.HandlerHeadUnbalanced | avalon/compiler/compiler.py:524-525 | the typed handler head as written leaves one parenthesis open and opens no brace |
| Text.ParseNatToString | avalon/compiler/compiler.py:421 | a label's decimal text parses back to the label |
| Syntax.BinOpSymbolRoundTrip | avalon/compiler/compiler.py:36-47 | every binary operator with a table entry is recovered from its symbol; exactly power, floor division and matrix product have none |
| Syntax.BinOpSymbolInjective | avalon/compiler/compiler.py:36-47 | distinct operators have distinct symbols |
| JsCache.Memo | avalon/compiler/compiler.py:558-562 | a stored non-empty text is returned without translating; otherwise the translation is returned and, on success, stored; no other object's entry changes |
| JsCache.MemoIdempotent | avalon/compiler/compiler.py:558-562 | repeating a successful call gives the same text and cache; it translates again only when the stored text was empty |
| FlatCompiler.Indent | avalon/compiler.py:279-284 | every line, or the single string, gets exactly `spaces*level` leading spaces; line count and order are kept |
| FlatCompiler.ExtendText | avalon/compiler.py:287-292 | a list is appended element-wise, a single string as one line |
| FlatCompiler.IndentCompose | avalon/compiler.py:279-284 | indenting by `a` then by `b` levels is indenting by `a+b` levels |
| FlatCompiler.IndentThenExtend | avalon/compiler.py:279-292 | extending by an indented fragment appends the fragment's lines, each prefixed by the indentation |
| FlatCompiler.IndentAgreesWithShift | avalon/compiler/compiler.py:542-547 | shifting structured lines and then rendering gives the same text as rendering and then prefixing spaces |
| FlatCompiler.NameTextTable | avalon/compiler.py:233-240 | `None`/`True`/`False` become `undefined`/`true`/`false`; every other identifier passes through unchanged |
| FlatCompiler.Exprs | avalon/compiler.py:210 | an expression list translates pointwise, and fails exactly when one element fails |
| FlatCompiler.BinOpRender | avalon/compiler.py:189-193 | a binary operation renders as `left op right` through the fixed table, whose symbol maps back to the operator; an operator without an entry is a KeyError |
| FlatCompiler.UnaryRender | avalon/compiler.py:196-199 | a unary operation renders as `op(operand)` and fails exactly when its operand fails |
| FlatCompiler.CallRender | avalon/compiler.py:203-211 | a call to `print` becomes `console.log(args)`, any other call `f(args)`, with the arguments translated in order and comma-joined |
| FlatCompiler.SlotLines | avalon/compiler.py:147-149 | element `i` of a tuple target is bound to `_assign[i]`, in order |
| FlatCompiler.AssignShape | avalon/compiler.py:137-154 | one line per plain target (`var t = v`); a tuple target gives `var _assign = v`, then one `var t_i = _assign[i]` per element |
| FlatCompiler.FunctionName | avalon/compiler.py:87-88 | the supplied name replaces the function's name exactly when a name was given and the object's name is the node's name |
| FlatCompiler.FunctionRename | avalon/compiler.py:86-101 | a function is emitted as `ctx.n = function n(params) {`, its body and `}`, where `n` is the renamed name |
| FlatCompiler.BodyIndented | avalon/compiler.py:97-98 | every body line starts with at least two spaces |
| FlatCompiler.MultipleBasesFail | avalon/compiler.py:107-108 | a class with two or more bases is exactly the NotImplementedError "Multiple inheritance not implemented" |
| FlatCompiler.ClassPrototype | avalon/compiler.py:104-134 | a class opens with its constructor, injecting `$scope` for a scope class. It ends with `prototype = new Base()` when it is not a scope and has a base, else with the `$inject` line |
| FlatCompiler.UnsupportedStatements | avalon/compiler.py:67-68 | loops, `if`, augmented assignment, `yield`, imports and the other statements without a visitor are NotImplementedError |
| FlatCompiler.AssembleLines | avalon/compiler.py:71-75 | the corrected module joins every statement's lines, in order, and keeps one-line statements whole |
| FlatCompiler.ModuleCharsPerLine | avalon/compiler.py:71-75 | as written, a one-line statement is spread one character per line (`f()` becomes `f`, `(`, `)`); the corrected module keeps `f()` |
| FlatCompiler.ListQuoted | avalon/compiler.py:243-244 | as written, a list renders as a Python repr with quoted items; the corrected list renders as JavaScript |
| FlatCompiler.ListLikeTuple | avalon/compiler.py:243-248 | the corrected list renders exactly as a tuple does |
| Agreement.NameAgree | avalon/compiler.py:233-240 | an unbound name with no receiver context renders the same in the flat and the state-machine translators |
| Agreement.SharedAgree | avalon/compiler.py:189-248 | on names, numbers, strings, arithmetic, unary operators, subscripts, lists and tuples, the state-machine translator with nothing bound gives the flat translator's text, or the same error |
| Agreement.StateCallText | avalon/compiler/compiler.py:453-468 | with nothing bound, a call on a non-attribute callee is `f.apply(this, [args])`, and `print` is `console.log(args);` |
| Agreement.CallAgree | avalon/compiler.py:203-211 | a call translates in both or in neither; the flat `f(args)` is `f.apply(this, [args])` in the state-machine translator with the same argument texts, and `print` is the same `console.log` line |
| Agreement.FunctionHeadsAgree | avalon/compiler.py:86-94 | a function the flat translator does not rename opens with the same line in both translators |
| Agreement.ClassHeadsAgree | avalon/compiler.py:104-120 | a class that is a scope for neither translator opens with the same line in both, stored under its own name |
| FlatCompiler.JsCompile | avalon/compiler.py:295-299 | a stored non-empty `__js__` is returned unchanged without translating; otherwise the module is translated |
| FlatCompiler.JsCompileIdempotent | avalon/compiler.py:295-299 | after a successful call, a second call returns the same text and cache |
| Builtins.BoolOf | avalon/compiler/builtins.py:15-17 | `bool` is the `__nonzero__` hook's result when there is one, else a boolean |
| Builtins.BoolPlain | avalon/compiler/builtins.py:15-17 | without the hook, `bool` is JavaScript truthiness; it preserves truthiness and is idempotent |
| Builtins.GetAttr | avalon/compiler/builtins.py:20-32 | `getattr` returns a defined field. Otherwise it calls the `__getattr__` hook, then falls back to the default. It throws AttributeError naming the object and attribute exactly when every step fails and there is no default |
| Builtins.GetAttrFallback | avalon/compiler/builtins.py:20-32 | the hook is called with the object and the name; the default is returned when there is neither a field nor a hook |
| Builtins.GetItem | avalon/compiler/builtins.py:35-37 | `getitem` uses the `__getitem__` hook when present, else indexes directly; it fails (a host TypeError) exactly on `undefined`/`null` |
| Builtins.SetAttr | avalon/compiler/builtins.py:63-66 | with a `__setattr__` hook the object is left to the hook; without one, the field is set |
| Builtins.SetItem | avalon/compiler/builtins.py:69-72 | with a `__setitem__` hook the object is left to the hook; without one, the slot is set |
| Builtins.SetThenGetAttr | avalon/compiler/builtins.py:63-66 | without hooks, `getattr` after `setattr` returns the stored value and no other field changes |
| Builtins.SetThenGetItem | avalon/compiler/builtins.py:69-72 | without hooks, `getitem` after `setitem` returns the stored value and no other slot changes |
| Builtins.HookedAssignmentDelegates | avalon/compiler/builtins.py:64-65 | with a `__setattr__` hook, `setattr` returns the hook's result on `(obj, name, value)` and does not write the field |
| Builtins.RangeBounds | avalon/compiler/builtins.py:53-57 | a falsy `stop` counts from 0 up to `start`; a falsy `step` is 1; the step is never 0 |
| Builtins.Range | avalon/compiler/builtins.py:53-60 | the generator is endless exactly when the bounds ascend and the step is negative |
| Builtins.AscendValues | avalon/compiler/builtins.py:58-60 | with a positive step the values are `lo + i*step`, all below `hi`, and the generator stops at the first value at or above `hi` |
| Builtins.AscendSorted | avalon/compiler/builtins.py:58-60 | with a positive step the values strictly increase |
| Builtins.EndlessStaysBelow | avalon/compiler/builtins.py:58-60 | with a negative step and ascending bounds every value stays below `stop`, so the loop never ends |
| Builtins.AscendIsPyRange | avalon/compiler/builtins.py:58-60 | with a positive step the loop gives exactly Python's `range` |
| Builtins.DescendIsPyRange | avalon/compiler/builtins.py:53-60 | the corrected descending loop gives exactly Python's `range` for a negative step |
| Builtins.RangeFixedIsPython | avalon/compiler/builtins.py:53-60 | the corrected shim is Python's `range` for every start and stop and every non-zero step; a falsy step is read as 1 |
| Builtins.RangeAgreesWhenStepPositive | avalon/compiler/builtins.py:53-60 | when `stop` is not 0 and the step is positive, the shim and the corrected shim agree |
| Builtins.RangeZeroStop | avalon/compiler/builtins.py:54-56 | `range(3, 0)` yields `0, 1, 2` as written, and nothing when corrected |
| Builtins.RangeNegativeStep | avalon/compiler/builtins.py:57-60 | as written, `range(0, 5, -1)` never ends and `range(3, 1, -1)` yields nothing; corrected, they yield nothing and `3, 2` |
| Generators.ToString | avalon/compiler/types.py:16-18 | `toString` reads `__repr__` through `getattr` with no default: a defined property, called on the object when truthy and `undefined` when falsy; else the `__getattr__` hook's answer, treated the same way; else the AttributeError of `getattr`, which is thrown exactly when there is neither property nor hook |
| Generators.ToStringWithoutRepr | avalon/compiler/types.py:15-18 | an object with neither `__repr__` nor a `__getattr__` hook, such as a bare instance of `object`, throws the AttributeError "'<name>' object has no attribute '__repr__'" instead of converting |
| Generators.ExceptionToString | avalon/compiler/types.py:16-18 | `toString` of an exception object whose `__repr__` gives the corrected repr is that repr `name:message`, which reads back into class name and message |
| Generators.Send | avalon/compiler/types.py:28-33 | `send(v)` runs the body on the context with `send = v`. Then it raises StopIteration with an empty message exactly when the end flag is set, and otherwise returns `result` |
| Generators.Next | avalon/compiler/types.py:25-26 | `next()` runs the body with `undefined` (compiled `None`) sent, and raises exactly when the end flag is set |
| Generators.SendOverwrites | avalon/compiler/types.py:28-30 | the previously sent value is overwritten: what a step sees depends only on the value sent now |
| Generators.Throw | avalon/compiler/types.py:35-36 | `throw` changes nothing |
| Generators.Close | avalon/compiler/types.py:38-39 | `close` changes nothing |
| Exceptions.New | avalon/compiler/exceptions.py:12-13 | a falsy or missing message becomes `''`; a truthy message is stored unchanged; the kind is kept |
| Exceptions.ReprRoundTrip | avalon/compiler/exceptions.py:15-16 | the corrected repr `name:message` splits back, at its first colon, into the class name and the message, and the name gives back the kind |
| Exceptions.ReprWithoutMessage | avalon/compiler/exceptions.py:12-16 | an exception made without a message has the corrected repr `name:` |
| Exceptions.SubclassesShareRules | avalon/compiler/exceptions.py:19-40 | every subclass normalises the message the same way; two corrected reprs of the same message are equal exactly when the kinds are |
| Builtins.ReprAsWrittenRaises | avalon/compiler/exceptions.py:15-16 | as written, `__repr__` reads `__name__` on an instance, which has none, so it throws AttributeError `'undefined' object has no attribute '__name__'` and never gives `name:message` |
| Exceptions.KindNameRoundTrip | avalon/compiler/exceptions.py:19-40 | each exception class name identifies its class |
| Client.EventDecorator | avalon/client.py:61-65 | `event` returns the function itself, tagged with `(name, selector)`; the selector defaults to `''` |
| Client.DecoratedListed | avalon/client.py:25-30 | a member the `event` decorator tagged is listed under its name with that event and selector |
| Client.EventsOfExact | avalon/client.py:25-30 | a member is listed under its name with a tag exactly when the class body holds it carrying that tag |
| Client.ScopeTypeNew | avalon/client.py:15-35 | two or more bases fail. A base with a non-empty `name` registers that scope once, with exactly the tagged members as events, and exposes the class. Other classes change nothing. A taken name fails |
| Client.RegisterTwiceFails | avalon/client.py:21-23 | registering a second class under a taken scope name fails, and the first entry keeps its events |
| Client.NewPromise | avalon/client.py:70-74 | a new promise has no result, `have_result` false and no task |
| Client.SetResult | avalon/client.py:76-78 | `set_result` stores the value and sets `have_result`; id and task are unchanged |
| Client.SetTask | avalon/client.py:80-81 | `set_task` changes only the task |
| Client.TaskStart | avalon/client.py:93-99 | `task` returns at once unless given a generator; a generator starts with an empty chain and `None` to send |
| Client.PopChain | avalon/client.py:105 | popping takes the chain's top; an empty chain gives nothing, which ends the loop |
| Client.Step | avalon/client.py:100-129 | a yielded generator is entered and the current one pushed; a yielded list waits for all its promises; a yielded promise suspends the task; any other yielded value is sent straight back; on StopIteration the stop value is sent to the popped top of the chain, or the loop ends with an empty chain; any other exception from `send` leaves the task as `Failed` with the value thrown |
| Client.ResumeAfter | avalon/client.py:128-129 | the value a promise delivers becomes the next value sent, with the chain unchanged |
| Client.NestedRoundTrip | avalon/client.py:100-112 | entering a nested generator and seeing it stop returns to the generator that yielded it, with the chain restored and the stop value to send |

## Left out

- Parsing and reflection (`ast.parse`, `inspect.getsource`, `sys.modules`) are foreign calls. The translators take a syntax-tree datatype. The module `lookup` reads an environment map from names to what they are bound to, with the session store and the document-store root as two distinguished values.
- Executing the emitted JavaScript is not modelled. The output is text, or structured lines with a render function.
- Foreign calls in the runtime shims are a `call` parameter the model does not see: hooks such as `__nonzero__`, `__getattr__`, `__setattr__` and `__repr__`. The step of a compiled generator is a `Body` function parameter.
- `isinstance` and `method` in `avalon/compiler/builtins.py` are single JavaScript expressions with nothing to state.
- `check`, `schedule`, `expose`, `compiled`, `Scope.__getattr__` and `Session` in `avalon/client.py` are foreign calls or wrappers. `Client.ScopeTypeNew` returns the exposed list instead of appending to a global.
- Client.Step: the iterable branch (avalon/client.py:114-126) is reduced to an `AwaitAll` outcome, and the turns after it are not modelled. As written, line 125 sends back `wait`, the dict from promise to index, rather than the list `res` that lines 121-123 fill with the results, which looks like a defect. It is not claimed as a finding: compiled, `wait` is a JavaScript object whose keys are the promises' string forms, and a `Promise` defines no `__repr__`, so what that dict holds depends on `toString` (Generators.ToStringWithoutRepr) more than on the line itself.
- Client.PopChain: Python's `list.pop` raises on an empty list, but `task` runs compiled, where an empty pop gives `undefined` and ends the loop; the model follows the compiled behaviour.
- Number literals are integers; float formatting in `visit_Num` is not modelled.
- `yield` is modelled at statement level only: as a statement, or as the whole value of an assignment. A `yield` nested inside a larger expression is not modelled.
- The handler type of `except T:` is printed with Python's `str` of a syntax node. It is taken as an opaque string.
- The Angular boilerplate of a scope class (teardown, the `__getattr__` fallback and the constructor block) is a constant block of lines.
- Dispatcher.FunctionDispatcher: requires every label in the body to stay visible. Inside a `try` body, any statement other than a bare `yield` is formatted into one guarded line. A label allocated inside such a statement (a nested loop, an assignment from `yield`) is then hidden, and the theorem does not cover it. Labels inside `if` branches, `except` bodies and class bodies are not hidden but refused.
- `try` with `else:` or `finally:`: the source drops both silently (`visit_TryExcept` never reads `orelse`, and `visit_Try` translates `body` and `handlers` only, avalon/compiler/compiler.py:333-366). The syntax tree has no field for them, so the model drops them too.
- Client.Step: the value sent after a StopIteration is a parameter. A compiled generator's `send` raises `StopIteration()` without a value (avalon/compiler/types.py:32), and the exception classes store only a message (avalon/compiler/exceptions.py:12-13), so in compiled code that value is always `undefined`. The lemma covers every value, `undefined` included.
- Builtins.GetAttr: a primitive value has no fields in the model, so `getattr("ab", "length", d)` gives the default, where JavaScript reads the string's length.
- Builtins.GetItem: indexing a primitive gives `undefined` in the model, where JavaScript gives `"ab"[0] == "a"`.
- Builtins.RangeFixedIsPython: a falsy step (0 or missing) is read as 1, as the shim does, where Python's `range` raises ValueError for step 0; the lemma states Python's `range` for non-zero steps only.
- The flat translator's remaining visitors (`Return`, `Print`, `TryExcept`, `Str`, `Attribute`, `Subscript`, `Tuple`, `Index`) are modelled in `FlatCompiler` without a separate lemma each. Their output is part of the statements the lemmas above cover.
- The state-machine translator's inline expression and simple statement visitors are modelled in `StateCompiler` without a separate lemma each: `Return`, `Print`, `AugAssign`, `Expr`, `Pass`, the imports, `BoolOp`, `BinOp`, `UnaryOp`, `Dict`, `Call` (including the `JSCode` escape), `Num`, `Str`, `Attribute`, `Subscript`, `List`, `Tuple` and `Index`. Their output is part of the statements the lemmas above cover.
- `runtime()` translates a fixed module with nothing to state.

## Findings

| source | as written | input that shows it | evidently intended | confidence | as-written member | corrected member |
|---|---|---|---|---|---|---|
| avalon/compiler/compiler.py:254-255 | `hasattr(node, 'yield_point')` is always true under a parent (the same test is at lines 289-290 and 336-337), so a loop or `try` outside a function fails on `None.create()` with AttributeError | a module-level `while x: pass` | the SyntaxError "While statement not inside a function block" | medium, not executed | CompilerFindings.GuardRaisesWrongError | StateCompiler.LoopGuard |
| avalon/compiler/compiler.py:269-270 | the step writes `$ctx.local.` before the visited target, which already carries that prefix | `for x in xs:` in a function: `$ctx.local.$ctx.local.x` is assigned while the body reads `$ctx.local.x` | assign the visited target itself | high, not executed | CompilerFindings.ForTargetPrefixedTwice | CompilerFindings.ForStepAssignsLoopVariable |
| avalon/compiler/compiler.py:261-269 | the iterable is bound through `visit_Name`, which gives the module's name when the module binds `iter`, but the step always reads `$ctx.local.iter` | a module with a top-level `def iter(): pass` and `for x in xs:` in a function: `iter = $assign;` overwrites the module's `iter`, the step's `$ctx.local.iter.next()` throws, the catch jumps to `break`, and the loop body never runs | bind and read the iterator under one name | medium, not executed | CompilerFindings.IterShadowed | CompilerFindings.ForStepAssignsLoopVariable |
| avalon/compiler/compiler.py:178 | iterating the `events` dict yields handler names, and `format(*e)` spreads a name's characters over event, selector and handler | a scope handler named `save` tagged `click`: listener for event `s` on selector `a` calling `v`; a name of two letters is an IndexError | one listener per `(handler, (event, selector))` item | high, not executed | CompilerFindings.EventKeysSpread | CompilerFindings.ListenersFromMembers |
| avalon/compiler/compiler.py:342-351 | the test `isinstance(c, ast.Yield)` never holds for a body statement, so a `yield` statement is formatted whole into one guarded line | `try: yield 1` inside a function: label `n` is handed out, but the yield's lines, `case n:` included, are printed as a Python list into `try { [...] }`, an inert JavaScript array of strings; the function never suspends there, so the `yield` is lost | the guarded suspension with `case n:` outside the guard, and its catch lines as three lines (lines 428-432 pass them to `extend` as a tuple, appended as one element) | high, not executed | CompilerFindings.YieldInTryLosesLabel | LabelTheory.GuardedLabels |
| avalon/compiler/compiler.py:154-160 | a class with any base is stored under the base's attribute name, even when the base is not a scope | `class Dog(animals.Animal)`: stored as `this.Animal`, while the prototype is set on `this.Dog` | the class's own name unless the base is a registered scope | medium, not executed | CompilerFindings.PlainBaseRenamed | CompilerFindings.ClassStoredWhereLinked |
| avalon/compiler/compiler.py:318-330 | the `if` visitor indents its branches, and a `yield` in a branch emits its `case n:` there; the same holds for `except` bodies (lines 529-530) and class bodies (lines 166-167) | `def f(): if x: yield 1` gives `case 1:` inside `if (x) {`, where JavaScript allows no `case` label: the emitted function is not valid JavaScript | every `case` directly in the `switch`; the corrected translator refuses such a statement | medium, not executed | CompilerFindings.YieldInIfNestsCase | CompilerFindings.NestedLabelsRefused |
| avalon/compiler/compiler.py:524-525 | the typed handler head lacks the closing `) {`; the flat translator's head at avalon/compiler.py:257-258 lacks it too | `except E:` with `E` printed as `T`: `if (__exception__.type == T` leaves a parenthesis open | `if (__exception__.type == T) {` | high, not executed | Lines.HandlerHeadUnbalanced | Lines.HandlerHeadBalanced |
| avalon/compiler/builtins.py:54-56 | `not stop` also holds for a stop of 0 | `range(3, 0)` yields `0, 1, 2` | only a missing stop counts from 0 | medium, not executed | Builtins.RangeZeroStop | Builtins.RangeFixedIsPython |
| avalon/compiler/builtins.py:58-60 | the loop test is `start < stop` whatever the step's sign | `range(0, 5, -1)` never ends; `range(3, 1, -1)` yields nothing | Python's `range`, descending for a negative step | medium, not executed | Builtins.RangeNegativeStep | Builtins.DescendIsPyRange |
| avalon/compiler.py:73-75 | `list.extend` with a string adds its characters | a module holding the statement `f()`: the text is `f`, `(`, `)` on three lines | one line per one-line statement | high, not executed | FlatCompiler.ModuleCharsPerLine | FlatCompiler.AssembleLines |
| avalon/compiler.py:243-244 | `str` of a Python list quotes every translated item | `[1, x]` becomes `['1', 'x']` | `[1, x]`, as for a tuple | high, not executed | FlatCompiler.ListQuoted | FlatCompiler.ListLikeTuple |
| avalon/compiler/exceptions.py:15-16 | `__repr__` reads `self.__name__`, an attribute of a class, which no instance has; nothing in the runtime sets it | `repr(ValueError('x'))`: AttributeError in Python; compiled, `getattr(self, '__name__')` throws AttributeError | `ValueError:x`, the class name, a colon and the message | medium, not executed | Builtins.ReprAsWrittenRaises | Exceptions.ReprRoundTrip |
