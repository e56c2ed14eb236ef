/** The runtime's basic types (avalon/compiler/types.py): `object`, whose
    `toString` defers to `__repr__`, and `generator`, the driver of a
    compiled generator function. The compiled function keeps its whole
    state in a context object; the driver writes the sent value into it,
    runs one step of the function, and reads back the end flag and the
    yielded value. */
module Generators {
  import opened JsValues
  import opened Exceptions
  import opened Builtins

  /** `object.toString()`: `if self.__repr__: return self.__repr__()`.
      Compiled, each `self.__repr__` is `getattr(self, "__repr__")` with
      no default, so the method is read as `Builtins.GetAttr` reads it: a
      defined property, else the `__getattr__` hook's answer, else an
      AttributeError. A truthy method is called on the object; a falsy one
      leaves the function without a return, which is `undefined`. The
      second read gives the same value as the first, since reads are pure
      here. */
  function ToString(obj: Val, call: Call): (r: Outcome<Val>)
    ensures !r.HostError?
    ensures Truthy(obj) && Truthy(Prop(obj, "__repr__"))
            ==> r == Returned(call(Prop(obj, "__repr__"), obj, []))
    ensures Truthy(obj) && !Prop(obj, "__repr__").Undefined? && !Truthy(Prop(obj, "__repr__"))
            ==> r == Returned(Undefined)
    ensures var hook := Prop(obj, "__getattr__");
      Truthy(obj) && Prop(obj, "__repr__").Undefined? && Truthy(hook) ==>
        var m := call(hook, obj, [obj, Str("__repr__")]);
        r == Returned(if Truthy(m) then call(m, obj, []) else Undefined)
    ensures r.Raised? <==>
      !Truthy(obj) || (Prop(obj, "__repr__").Undefined? && !Truthy(Prop(obj, "__getattr__")))
    ensures r.Raised? ==>
      r.e.kind == AttributeError && r.e.message == Str(MissingAttrMessage(obj, "__repr__"))
  {
    match GetAttr(obj, "__repr__", Undefined, call)
    case Returned(m) => Returned(if Truthy(m) then call(m, obj, []) else Undefined)
    case Raised(x) => Raised(x)
    case HostError => HostError
  }

  /** An object with neither a `__repr__` nor a `__getattr__` hook, such
      as a bare instance of the runtime's `object`, does not convert to
      `undefined`: `toString` throws the AttributeError of `getattr`. */
  lemma ToStringWithoutRepr(o: Obj, call: Call)
    requires "__repr__" !in o.props && "__getattr__" !in o.props
    ensures ToString(Ref(o), call)
            == Raised(New(AttributeError, Str(MissingAttrMessage(Ref(o), "__repr__"))))
  {
  }

  /** The object's `__repr__` is a method that, called on the object,
      gives the repr of exception `e`: the shape of every instance of the
      runtime's exception classes. */
  predicate ReprsAs(obj: Val, e: Exc, call: Call)
  {
    Prop(obj, "__repr__").Fn? && call(Prop(obj, "__repr__"), obj, []) == Str(Repr(e))
  }

  /** `toString` of an exception is its repr (the first conclusion only
      restates the hypothesis through `ToString`), and that text reads
      back into the class name and the message. The repr here is the
      corrected one: as written it throws (`Builtins.ReprAsWrittenRaises`). */
  lemma ExceptionToString(obj: Val, e: Exc, call: Call)
    requires ReprsAs(obj, e, call)
    ensures ToString(obj, call) == Returned(Str(Repr(e)))
    ensures ParseRepr(ToString(obj, call).v.s) == (KindName(e.kind), ToStr(e.message))
  {
    ReprRoundTrip(e);
  }

  /** The generator's context: the value sent in, the end flag and the
      value last yielded, beside the dispatcher state and locals the
      compiled function keeps there. */
  datatype Ctx = Ctx(send: Val, end: bool, result: Val, nextState: nat, locals: map<string, Val>)

  /** One run of the compiled function body on the context
      (`ctx['func'].call(ctx['ctx'], ctx)`): code the model does not see. */
  type Body = Ctx -> Ctx

  datatype Generator = Generator(ctx: Ctx)

  /** What resuming a generator gives: the outcome of the call and the
      generator afterwards. */
  datatype Resumption = Resumption(out: Outcome<Val>, gen: Generator)

  /** `send(value)`: store the value, run one step, then raise
      StopIteration if the step set the end flag, else return the value
      it left in `result`. */
  function Send(g: Generator, value: Val, body: Body): (r: Resumption)
    ensures r.gen.ctx == body(g.ctx.(send := value))
    ensures r.out.Raised? <==> r.gen.ctx.end
    ensures r.out.Raised? ==> r.out.e.kind == StopIteration && r.out.e.message == Str("")
    ensures !r.out.Raised? ==> r.out == Returned(r.gen.ctx.result)
  {
    var ctx := body(g.ctx.(send := value));
    if ctx.end then Resumption(Raised(New(StopIteration, Undefined)), Generator(ctx))
    else Resumption(Returned(ctx.result), Generator(ctx))
  }

  /** `next()` is `send(None)`; Python's `None` is `undefined` once
      compiled, so the body runs with `undefined` as the sent value. */
  function Next(g: Generator, body: Body): (r: Resumption)
    ensures r.gen.ctx == body(g.ctx.(send := Undefined))
    ensures r.out.Raised? <==> r.gen.ctx.end
  {
    Send(g, Undefined, body)
  }

  /** The value sent before is forgotten: `send` overwrites it, so what
      a step sees depends only on the value sent now. */
  lemma SendOverwrites(g: Generator, previous: Val, value: Val, body: Body)
    ensures Send(Generator(g.ctx.(send := previous)), value, body) == Send(g, value, body)
  {
    assert g.ctx.(send := previous).(send := value) == g.ctx.(send := value);
  }

  /** `throw()` and `close()` do nothing. */
  function Throw(g: Generator): (h: Generator)
    ensures h == g
  {
    g
  }

  function Close(g: Generator): (h: Generator)
    ensures h == g
  {
    g
  }
}
