/** The built-in function shims of the compiled runtime
    (avalon/compiler/builtins.py): truthiness with a `__nonzero__` hook,
    attribute and item access that try a hook and fall back to plain
    property access, and the `range` generator. */
module Builtins {
  import opened Wrappers
  import opened JsValues
  import opened Exceptions

  // ---------------------------------------------------------------------
  // bool

  /** `bool(obj)`: a truthy object with a `__nonzero__` hook answers
      through it; anything else converts by plain truthiness. */
  function BoolOf(obj: Val, call: Call): (r: Val)
    ensures HasHook(obj, "__nonzero__") ==> r == call(Prop(obj, "__nonzero__"), obj, [])
    ensures !HasHook(obj, "__nonzero__") ==> r.Bool?
  {
    if HasHook(obj, "__nonzero__") then call(Prop(obj, "__nonzero__"), obj, [])
    else Bool(Truthy(obj))
  }

  /** Without a hook, `bool` agrees with truthiness and is its own
      fixpoint: converting its result again changes nothing. */
  lemma BoolPlain(obj: Val, call: Call)
    requires !HasHook(obj, "__nonzero__")
    ensures BoolOf(obj, call) == Bool(Truthy(obj))
    ensures Truthy(BoolOf(obj, call)) <==> Truthy(obj)
    ensures BoolOf(BoolOf(obj, call), call) == BoolOf(obj, call)
  {
  }

  // ---------------------------------------------------------------------
  // getattr

  /** The text of the AttributeError `getattr` throws: the object's
      `__name__` (or the falsy object itself) and the attribute name. */
  function MissingAttrMessage(obj: Val, name: string): string
  {
    var objName := if Truthy(obj) then Prop(obj, "__name__") else obj;
    "'" + ToStr(objName) + "' object has no attribute '" + name + "'"
  }

  /** `getattr(obj, name, default)`: a defined own property wins; then a
      `__getattr__` hook, called with the object and the name; then a
      defined default; with no default an AttributeError is thrown. */
  function GetAttr(obj: Val, name: string, default: Val, call: Call): (r: Outcome<Val>)
    ensures !r.HostError?
    ensures r.Raised? <==>
      (!Truthy(obj) || (Prop(obj, name).Undefined? && !Truthy(Prop(obj, "__getattr__"))))
      && default.Undefined?
    ensures r.Raised? ==> r.e.kind == AttributeError && r.e.message == Str(MissingAttrMessage(obj, name))
    ensures Truthy(obj) && !Prop(obj, name).Undefined? ==> r == Returned(Prop(obj, name))
  {
    if Truthy(obj) && !Prop(obj, name).Undefined? then Returned(Prop(obj, name))
    else if Truthy(obj) && Truthy(Prop(obj, "__getattr__")) then
      Returned(call(Prop(obj, "__getattr__"), obj, [obj, Str(name)]))
    else if default.Undefined? then
      Raised(New(AttributeError, Str(MissingAttrMessage(obj, name))))
    else Returned(default)
  }

  /** The fallback order: a hook answers exactly for the attributes the
      object lacks, and a default is used only when neither the object
      nor a hook answers. */
  lemma GetAttrFallback(obj: Val, name: string, default: Val, call: Call)
    ensures var hook := Prop(obj, "__getattr__");
      Truthy(obj) && Prop(obj, name).Undefined? && Truthy(hook) ==>
        GetAttr(obj, name, default, call) == Returned(call(hook, obj, [obj, Str(name)]))
    ensures ((!Truthy(obj) || (Prop(obj, name).Undefined? && !Truthy(Prop(obj, "__getattr__"))))
             && !default.Undefined?)
            ==> GetAttr(obj, name, default, call) == Returned(default)
  {
  }

  // ---------------------------------------------------------------------
  // getitem

  /** `getitem(obj, key)`: the `__getitem__` hook when present, else the
      property named by the key. Reading a property of `undefined` or
      `null` is an engine error. */
  function GetItem(obj: Val, key: Val, call: Call): (r: Outcome<Val>)
    ensures r.HostError? <==> obj.Undefined? || obj.Null?
    ensures !r.Raised?
    ensures r.Returned? && Truthy(Prop(obj, "__getitem__")) ==>
      r.v == call(Prop(obj, "__getitem__"), obj, [key])
    ensures r.Returned? && !Truthy(Prop(obj, "__getitem__")) ==> r.v == Prop(obj, ToStr(key))
  {
    if obj.Undefined? || obj.Null? then HostError
    else if Truthy(Prop(obj, "__getitem__")) then Returned(call(Prop(obj, "__getitem__"), obj, [key]))
    else Returned(Prop(obj, ToStr(key)))
  }

  // ---------------------------------------------------------------------
  // setattr / setitem

  /** The result of an assignment shim: its outcome and the object as
      the shim leaves it. A hook's own effects are not visible here. */
  datatype Assigned = Assigned(out: Outcome<Val>, obj: Val)

  /** The shared rule of `setattr` and `setitem`: delegate to `hookName`
      when the object has that hook, otherwise store the value under the
      property `key`. Assigning to a primitive stores nothing. */
  function Store(obj: Val, hookName: string, key: string, keyArg: Val, value: Val, call: Call): (r: Assigned)
    ensures r.out.HostError? <==> obj.Undefined? || obj.Null?
    ensures !r.out.Raised?
    ensures Truthy(Prop(obj, hookName)) ==>
      r == Assigned(Returned(call(Prop(obj, hookName), obj, [obj, keyArg, value])), obj)
    ensures !r.out.HostError? && !Truthy(Prop(obj, hookName)) ==>
      r.out == Returned(Undefined) && (obj.Ref? ==> r.obj == Ref(SetProp(obj.obj, key, value))) && (!obj.Ref? ==> r.obj == obj)
  {
    if obj.Undefined? || obj.Null? then Assigned(HostError, obj)
    else if Truthy(Prop(obj, hookName)) then
      Assigned(Returned(call(Prop(obj, hookName), obj, [obj, keyArg, value])), obj)
    else if obj.Ref? then Assigned(Returned(Undefined), Ref(SetProp(obj.obj, key, value)))
    else Assigned(Returned(Undefined), obj)
  }

  /** `setattr(obj, name, value)`. */
  function SetAttr(obj: Val, name: string, value: Val, call: Call): (r: Assigned)
    ensures Truthy(Prop(obj, "__setattr__")) ==> r.obj == obj
    ensures obj.Ref? && !Truthy(Prop(obj, "__setattr__")) ==> r.obj.Ref? && Prop(r.obj, name) == value
  {
    Store(obj, "__setattr__", name, Str(name), value, call)
  }

  /** `setitem(obj, key, value)`: the key names the property. */
  function SetItem(obj: Val, key: Val, value: Val, call: Call): (r: Assigned)
    ensures Truthy(Prop(obj, "__setitem__")) ==> r.obj == obj
    ensures obj.Ref? && !Truthy(Prop(obj, "__setitem__")) ==> r.obj.Ref? && Prop(r.obj, ToStr(key)) == value
  {
    Store(obj, "__setitem__", ToStr(key), key, value, call)
  }

  /** Without hooks, an attribute set by `setattr` reads back through
      `getattr` (when the value is defined), and every other property
      keeps its value. */
  lemma SetThenGetAttr(o: Obj, name: string, other: string, value: Val, default: Val, call: Call)
    requires !Truthy(Prop(Ref(o), "__setattr__"))
    requires !value.Undefined?
    requires other != name
    ensures var after := SetAttr(Ref(o), name, value, call).obj;
      && GetAttr(after, name, default, call) == Returned(value)
      && Prop(after, other) == Prop(Ref(o), other)
  {
  }

  /** Without hooks, an item set by `setitem` reads back through
      `getitem`, and every other property keeps its value. */
  lemma SetThenGetItem(o: Obj, key: Val, other: string, value: Val, call: Call)
    requires !Truthy(Prop(Ref(o), "__setitem__"))
    requires ToStr(key) != "__getitem__" && !Truthy(Prop(Ref(o), "__getitem__"))
    requires other != ToStr(key)
    ensures var after := SetItem(Ref(o), key, value, call).obj;
      && GetItem(after, key, call) == Returned(value)
      && Prop(after, other) == Prop(Ref(o), other)
  {
  }

  /** A hook takes the assignment over: the object is left as it was
      and the hook's answer is returned. */
  lemma HookedAssignmentDelegates(o: Obj, name: string, value: Val, call: Call)
    requires Truthy(Prop(Ref(o), "__setattr__"))
    ensures SetAttr(Ref(o), name, value, call)
         == Assigned(Returned(call(Prop(Ref(o), "__setattr__"), Ref(o), [Ref(o), Str(name), value])), Ref(o))
  {
  }

  // ---------------------------------------------------------------------
  // range

  /** What running a generator to exhaustion gives: the values it yields,
      or `Endless` when its loop never ends. */
  datatype Run = Finite(values: seq<int>) | Endless

  /** `not x` for a numeric argument that may be missing (`undefined`). */
  predicate Falsy(x: Option<int>)
  {
    x.None? || x.value == 0
  }

  /** The loop bounds after the argument shuffle: a falsy `stop` makes
      `start` the stop and 0 the start; a falsy `step` becomes 1. */
  function RangeBounds(start: int, stop: Option<int>, step: Option<int>): (b: (int, int, int))
    ensures b.2 != 0
    ensures Falsy(stop) ==> b.0 == 0 && b.1 == start
    ensures !Falsy(stop) ==> b.0 == start && b.1 == stop.value
    ensures Falsy(step) ==> b.2 == 1
    ensures !Falsy(step) ==> b.2 == step.value
  {
    var (lo, hi) := if Falsy(stop) then (0, start) else (start, stop.value);
    (lo, hi, if Falsy(step) then 1 else step.value)
  }

  /** `while start < stop: yield start; start += step` for a positive
      step. */
  function Ascend(lo: int, hi: int, step: int): seq<int>
    requires step > 0
    decreases hi - lo
  {
    if lo >= hi then [] else [lo] + Ascend(lo + step, hi, step)
  }

  /** `range(start, stop, step)` as written. */
  function Range(start: int, stop: Option<int>, step: Option<int>): (r: Run)
    ensures var (lo, hi, st) := RangeBounds(start, stop, step);
      r.Endless? <==> lo < hi && st < 0
  {
    var (lo, hi, st) := RangeBounds(start, stop, step);
    if lo >= hi then Finite([]) else if st > 0 then Finite(Ascend(lo, hi, st)) else Endless
  }

  /** With a positive step the values are `lo, lo+step, ...`, each below
      `hi`, and the loop ends at the first value that reaches `hi`. */
  lemma {:induction false} AscendValues(lo: int, hi: int, step: int)
    requires step > 0
    ensures var r := Ascend(lo, hi, step);
      && (forall i :: 0 <= i < |r| ==> r[i] == lo + i * step && r[i] < hi)
      && lo + |r| * step >= hi
      && (|r| > 0 ==> lo + (|r| - 1) * step < hi)
    decreases hi - lo
  {
    var r := Ascend(lo, hi, step);
    if lo < hi {
      AscendValues(lo + step, hi, step);
      var t := Ascend(lo + step, hi, step);
      assert r == [lo] + t;
      forall i | 0 < i < |r| ensures r[i] == lo + i * step {
        assert r[i] == t[i - 1] == lo + step + (i - 1) * step;
      }
      assert lo + |r| * step == lo + step + |t| * step;
    }
  }

  /** The values ascend strictly. */
  lemma AscendSorted(lo: int, hi: int, step: int)
    requires step > 0
    ensures var r := Ascend(lo, hi, step);
      forall i, j :: 0 <= i < j < |r| ==> r[i] < r[j]
  {
    var r := Ascend(lo, hi, step);
    AscendValues(lo, hi, step);
    forall i, j | 0 <= i < j < |r| ensures r[i] < r[j] {
      MulStrict(i, j, step);
    }
  }

  lemma MulStrict(i: int, j: int, step: int)
    requires i < j && step > 0
    ensures i * step < j * step
  {
    assert j * step - i * step == (j - i) * step;
  }

  lemma MulMono(i: int, j: int, step: int)
    requires i <= j && step > 0
    ensures i * step <= j * step
  {
    assert j * step - i * step == (j - i) * step;
  }

  /** A negative step with `start < stop` never leaves the loop: every
      value it reaches stays below `stop`. */
  lemma EndlessStaysBelow(lo: int, hi: int, step: int, k: nat)
    requires lo < hi && step < 0
    ensures lo + k * step < hi
  {
    assert k * step <= 0 by { MulMono(0, k, -step); assert k * (-step) == -(k * step); }
  }

  // ---------------------------------------------------------------------
  // range as Python defines it

  /** How many values Python's `range(lo, hi, step)` holds. */
  function PyRangeLength(lo: int, hi: int, step: int): (n: nat)
    requires step != 0
  {
    if step > 0 then (if hi <= lo then 0 else (hi - lo + step - 1) / step)
    else (if lo <= hi then 0 else (lo - hi - step - 1) / (-step))
  }

  /** Python's `range(lo, hi, step)`: `lo + i*step` for each index. */
  function PyRange(lo: int, hi: int, step: int): (r: seq<int>)
    requires step != 0
  {
    seq(PyRangeLength(lo, hi, step), i => lo + i * step)
  }

  /** The length of Python's range is the index of the first value past
      the bound. */
  lemma PyRangeLengthBounds(lo: int, hi: int, step: int)
    requires step > 0
    ensures var n := PyRangeLength(lo, hi, step);
      lo + n * step >= hi && (n > 0 ==> lo + (n - 1) * step < hi)
  {
    var n := PyRangeLength(lo, hi, step);
    if lo < hi {
      var x := hi - lo + step - 1;
      assert x == n * step + x % step;
      assert 0 <= x % step < step;
    }
  }

  /** Two lengths that both sit at the first value past the bound are
      equal. */
  lemma LengthUnique(lo: int, hi: int, step: int, n: nat, m: nat)
    requires step > 0
    requires lo + n * step >= hi && (n > 0 ==> lo + (n - 1) * step < hi)
    requires lo + m * step >= hi && (m > 0 ==> lo + (m - 1) * step < hi)
    ensures n == m
  {
    if n < m {
      MulMono(n, m - 1, step);
    } else if m < n {
      MulMono(m, n - 1, step);
    }
  }

  /** With a positive step the shim's loop yields exactly Python's range. */
  lemma AscendIsPyRange(lo: int, hi: int, step: int)
    requires step > 0
    ensures Ascend(lo, hi, step) == PyRange(lo, hi, step)
  {
    var r, p := Ascend(lo, hi, step), PyRange(lo, hi, step);
    AscendValues(lo, hi, step);
    PyRangeLengthBounds(lo, hi, step);
    LengthUnique(lo, hi, step, |r|, |p|);
  }

  /** `while start > stop: yield start; start += step` for a negative
      step. */
  function Descend(lo: int, hi: int, step: int): seq<int>
    requires step < 0
    decreases lo - hi
  {
    if lo <= hi then [] else [lo] + Descend(lo + step, hi, step)
  }

  lemma {:induction false} DescendValues(lo: int, hi: int, step: int)
    requires step < 0
    ensures var r := Descend(lo, hi, step);
      && (forall i :: 0 <= i < |r| ==> r[i] == lo + i * step && r[i] > hi)
      && lo + |r| * step <= hi
      && (|r| > 0 ==> lo + (|r| - 1) * step > hi)
    decreases lo - hi
  {
    var r := Descend(lo, hi, step);
    if lo > hi {
      DescendValues(lo + step, hi, step);
      var t := Descend(lo + step, hi, step);
      assert r == [lo] + t;
      forall i | 0 < i < |r| ensures r[i] == lo + i * step {
        assert r[i] == t[i - 1] == lo + step + (i - 1) * step;
      }
      assert lo + |r| * step == lo + step + |t| * step;
    }
  }

  lemma DescendIsPyRange(lo: int, hi: int, step: int)
    requires step < 0
    ensures Descend(lo, hi, step) == PyRange(lo, hi, step)
  {
    var r, p := Descend(lo, hi, step), PyRange(lo, hi, step);
    DescendValues(lo, hi, step);
    // The descending range is the ascending one over negated values.
    PyRangeLengthBounds(-lo, -hi, -step);
    assert PyRangeLength(lo, hi, step) == PyRangeLength(-lo, -hi, -step);
    var n := |p|;
    assert -lo + n * (-step) >= -hi && (n > 0 ==> -lo + (n - 1) * (-step) < -hi);
    assert -lo + |r| * (-step) >= -hi && (|r| > 0 ==> -lo + (|r| - 1) * (-step) < -hi);
    LengthUnique(-lo, -hi, -step, |r|, n);
  }

  /** `range` as evidently intended: only a missing `stop` selects the
      one-argument form, and a negative step counts down. A zero or
      missing step still becomes 1, as in the shim. */
  function RangeFixed(start: int, stop: Option<int>, step: Option<int>): (r: seq<int>)
  {
    var (lo, hi) := if stop.None? then (0, start) else (start, stop.value);
    var st := if Falsy(step) then 1 else step.value;
    if st > 0 then Ascend(lo, hi, st) else Descend(lo, hi, st)
  }

  /** The corrected `range` is Python's range on every input. */
  lemma RangeFixedIsPython(start: int, stop: Option<int>, step: Option<int>)
    ensures var (lo, hi) := if stop.None? then (0, start) else (start, stop.value);
      RangeFixed(start, stop, step) == PyRange(lo, hi, if Falsy(step) then 1 else step.value)
  {
    var (lo, hi) := if stop.None? then (0, start) else (start, stop.value);
    var st := if Falsy(step) then 1 else step.value;
    if st > 0 { AscendIsPyRange(lo, hi, st); } else { DescendIsPyRange(lo, hi, st); }
  }

  /** Where the written shim is right — a non-zero `stop` or none, and a
      positive step — it agrees with the corrected one. */
  lemma RangeAgreesWhenStepPositive(start: int, stop: Option<int>, step: Option<int>)
    requires stop != Some(0)
    requires Falsy(step) || step.value > 0
    ensures Range(start, stop, step) == Finite(RangeFixed(start, stop, step))
  {
  }

  /** Counter-example: `range(3, 0)` yields 0, 1, 2 — the falsy stop 0
      is taken for a missing one — where Python's range is empty. */
  lemma RangeZeroStop()
    ensures Range(3, Some(0), None) == Finite([0, 1, 2])
    ensures RangeFixed(3, Some(0), None) == []
  {
    assert Ascend(3, 3, 1) == [];
    assert Ascend(2, 3, 1) == [2];
    assert Ascend(1, 3, 1) == [1, 2];
  }

  /** Counter-example: a negative step never ends when start < stop and
      yields nothing when start > stop; Python yields nothing, resp.
      counts down. */
  lemma RangeNegativeStep()
    ensures Range(0, Some(5), Some(-1)) == Endless
    ensures RangeFixed(0, Some(5), Some(-1)) == []
    ensures Range(3, Some(1), Some(-1)) == Finite([])
    ensures RangeFixed(3, Some(1), Some(-1)) == [3, 2]
  {
    assert Descend(1, 1, -1) == [];
    assert Descend(2, 1, -1) == [2];
  }

  // ---------------------------------------------------------------------
  // the exception repr as written

  /** A compiled exception instance: the `message` field its constructor
      sets and the two methods of its class. Nothing in the runtime sets
      `__name__` on an instance, and no exception class has a
      `__getattr__` hook. */
  function Instance(e: Exc, initCode: nat, reprCode: nat): Val
  {
    Ref(Obj(map["message" := e.message, "__init__" := Fn(initCode), "__repr__" := Fn(reprCode)]))
  }

  /** `__repr__` as written: `self.__name__ + ':' + self.message`, each
      attribute read compiled to `getattr(self, name)`. */
  function ReprAsWritten(e: Exc, initCode: nat, reprCode: nat, call: Call): Outcome<string>
  {
    var self := Instance(e, initCode, reprCode);
    match GetAttr(self, "__name__", Undefined, call)
    case Returned(n) =>
      (match GetAttr(self, "message", Undefined, call)
       case Returned(m) => Returned(ToStr(n) + ":" + ToStr(m))
       case Raised(x) => Raised(x)
       case HostError => HostError)
    case Raised(x) => Raised(x)
    case HostError => HostError
  }

  /** Counter-example: an instance has no `__name__`, so the repr as
      written throws AttributeError instead of giving `name:message`. */
  lemma ReprAsWrittenRaises(e: Exc, initCode: nat, reprCode: nat, call: Call)
    ensures ReprAsWritten(e, initCode, reprCode, call)
      == Raised(New(AttributeError, Str("'" + "undefined" + "' object has no attribute '" + "__name__" + "'")))
    ensures ReprAsWritten(e, initCode, reprCode, call) != Returned(Repr(e))
  {
    var self := Instance(e, initCode, reprCode);
    assert Prop(self, "__name__") == Undefined && Prop(self, "__getattr__") == Undefined;
    assert ToStr(Prop(self, "__name__")) == "undefined";
  }
}
