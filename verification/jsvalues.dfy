/** The JavaScript values the runtime shims (avalon/compiler/builtins.py,
    types.py, exceptions.py) operate on once compiled: primitives,
    functions (identified opaquely) and objects as maps from property
    names to values. */
module JsValues {
  import opened Text

  datatype Val =
    | Undefined
    | Null
    | Bool(b: bool)
    | Num(n: int)
    | Str(s: string)
    | Fn(code: nat)
    | Ref(obj: Obj)

  datatype Obj = Obj(props: map<string, Val>)

  /** JavaScript truthiness: `undefined`, `null`, `false`, `0` and `""`
      are falsy, everything else is truthy. */
  predicate Truthy(v: Val)
  {
    match v
    case Undefined => false
    case Null => false
    case Bool(b) => b
    case Num(n) => n != 0
    case Str(s) => s != ""
    case Fn(_) => true
    case Ref(_) => true
  }

  /** `v[name]`: `undefined` when absent. An object's `props` is the
      resolved view of every property visible on it, its own and those
      reached through its prototype chain (the compiled classes link
      prototypes with `prototype = new Base()`). Primitives carry no
      properties in this model. */
  function Prop(v: Val, name: string): (r: Val)
    ensures !v.Ref? ==> r == Undefined
    ensures v.Ref? && name !in v.obj.props ==> r == Undefined
  {
    if v.Ref? && name in v.obj.props then v.obj.props[name] else Undefined
  }

  /** `v && v.name`: a hook is present when the value and its property
      are both truthy. */
  predicate HasHook(v: Val, name: string)
  {
    Truthy(v) && Truthy(Prop(v, name))
  }

  /** `o[name] = v` on an object. */
  function SetProp(o: Obj, name: string, v: Val): (r: Obj)
    ensures name in r.props && r.props[name] == v
    ensures r.props.Keys == o.props.Keys + {name}
    ensures forall k :: k in o.props && k != name ==> r.props[k] == o.props[k]
  {
    Obj(o.props[name := v])
  }

  /** String conversion under `+`. Objects and functions print their
      default form. */
  function ToStr(v: Val): string
  {
    match v
    case Undefined => "undefined"
    case Null => "null"
    case Bool(b) => if b then "true" else "false"
    case Num(n) => IntToString(n)
    case Str(s) => s
    case Fn(_) => "function"
    case Ref(_) => "[object Object]"
  }

  /** A call into code the model does not see: the function, the `this`
      value and the arguments determine the result. */
  type Call = (Val, Val, seq<Val>) -> Val
}
