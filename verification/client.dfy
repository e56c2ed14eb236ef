/** The client-side runtime of avalon/client.py: the registry of reactive
    scopes built when scope classes are created, the `event` decorator,
    `Promise`, and the `task` trampoline that runs a chain of nested
    generators. */
module Client {
  import opened Wrappers

  /** `f.event = (name, selector)`. */
  datatype EventTag = EventTag(eventName: string, selector: string)

  /** A class member; a function decorated with `event` carries its tag. */
  datatype Func = Func(fname: string, event: Option<EventTag>)

  /** A registry entry: the scope name and the event handlers of the
      class, keyed by member name in class-body order. */
  datatype ScopeEntry = ScopeEntry(name: string, events: seq<(string, EventTag)>)

  type Registry = map<string, ScopeEntry>

  /** A base class, seen through its `name` class attribute. */
  datatype BaseClass = BaseClass(scopeName: Option<string>)

  /** `event.<name>(selector)` applied to `f`: the selector defaults to
      the empty string and the function itself is returned, tagged. */
  function EventDecorator(eventName: string, selector: Option<string>, f: Func): (g: Func)
    ensures g.fname == f.fname
    ensures g.event == Some(EventTag(eventName, selector.GetOr("")))
    ensures selector.None? ==> g.event.value.selector == ""
  {
    f.(event := Some(EventTag(eventName, selector.GetOr(""))))
  }

  /** A member the decorator tagged is listed under its name with the
      event and selector it was given. */
  lemma DecoratedListed(classdict: seq<(string, Func)>, k: string, eventName: string,
                        selector: Option<string>, f: Func)
    requires (k, EventDecorator(eventName, selector, f)) in classdict
    ensures (k, EventTag(eventName, selector.GetOr(""))) in EventsOf(classdict)
  {
    var g := EventDecorator(eventName, selector, f);
    assert (k, g) in classdict && g.event == Some(EventTag(eventName, selector.GetOr("")));
    EventsOfExact(classdict, k, EventTag(eventName, selector.GetOr("")));
  }

  /** The members that carry an event tag, in class-body order. */
  function EventsOf(classdict: seq<(string, Func)>): (r: seq<(string, EventTag)>)
    ensures |r| <= |classdict|
  {
    if |classdict| == 0 then []
    else
      var (k, f) := classdict[0];
      (if f.event.Some? then [(k, f.event.value)] else []) + EventsOf(classdict[1..])
  }

  /** A member is listed under its own name exactly when it carries that
      event tag. */
  lemma {:induction false} EventsOfExact(classdict: seq<(string, Func)>, k: string, t: EventTag)
    ensures (k, t) in EventsOf(classdict) <==> exists f :: (k, f) in classdict && f.event == Some(t)
    decreases |classdict|
  {
    if |classdict| > 0 {
      EventsOfExact(classdict[1..], k, t);
      var (k0, f0) := classdict[0];
      var rest := EventsOf(classdict[1..]);
      assert EventsOf(classdict) == (if f0.event.Some? then [(k0, f0.event.value)] else []) + rest;
      if exists f :: (k, f) in classdict && f.event == Some(t) {
        var f :| (k, f) in classdict && f.event == Some(t);
        if (k, f) != classdict[0] {
          assert (k, f) in classdict[1..];
        }
      }
      if exists f :: (k, f) in classdict[1..] && f.event == Some(t) {
        var f :| (k, f) in classdict[1..] && f.event == Some(t);
        assert (k, f) in classdict;
      }
    }
  }

  /** `ScopeType.__new__`: creating a class. A class with more than one
      base fails; a class whose base has a (non-empty) `name` registers a
      scope under that name, once only, and is exposed to the client
      bundle. Returns the new registry and exposed-class list. */
  function ScopeTypeNew(reg: Registry, exposed: seq<string>, clsName: string,
                        bases: seq<BaseClass>, classdict: seq<(string, Func)>)
    : (r: Result<(Registry, seq<string>), string>)
    ensures |bases| > 1 ==> r.Err?
    ensures r.Ok? && (|bases| == 0 || bases[0].scopeName.None? || bases[0].scopeName == Some(""))
            ==> r.value == (reg, exposed)
    ensures r.Ok? && |bases| == 1 && bases[0].scopeName.Some? && bases[0].scopeName.value != "" ==>
      var s := bases[0].scopeName.value;
      && s !in reg
      && r.value.0.Keys == reg.Keys + {s}
      && r.value.0[s].name == s
      && r.value.0[s].events == EventsOf(classdict)
      && (forall k :: k in reg ==> r.value.0[k] == reg[k])
      && r.value.1 == exposed + [clsName]
    ensures r.Err? && |bases| <= 1 ==>
      |bases| == 1 && bases[0].scopeName.Some? && bases[0].scopeName.value in reg
  {
    if |bases| > 1 then Err("Multiple inheritance not supported")
    else
      var scopeName := if |bases| == 1 then bases[0].scopeName else None;
      if scopeName.Some? && scopeName.value != "" then
        var s := scopeName.value;
        if s in reg then Err("Scope." + s + " already defined")
        else Ok((reg[s := ScopeEntry(s, EventsOf(classdict))], exposed + [clsName]))
      else Ok((reg, exposed))
  }

  /** A scope name is registered at most once: registering a second class
      under a taken name fails. */
  lemma RegisterTwiceFails(reg: Registry, exposed: seq<string>, a: string, b: string,
                           base: BaseClass, da: seq<(string, Func)>, db: seq<(string, Func)>)
    requires base.scopeName.Some? && base.scopeName.value != ""
    requires ScopeTypeNew(reg, exposed, a, [base], da).Ok?
    ensures var (reg1, exp1) := ScopeTypeNew(reg, exposed, a, [base], da).value;
      && ScopeTypeNew(reg1, exp1, b, [base], db).Err?
      && reg1[base.scopeName.value].events == EventsOf(da)
  {
  }

  // ---------------------------------------------------------------------
  // Promise

  /** The values the trampoline inspects: generators, promises, iterables
      and anything else (identified opaquely). */
  datatype TaskValue = GenV(gen: nat) | PromiseV(promise: nat) | IterV(items: seq<TaskValue>)
                     | PlainV(id: nat) | NoneV

  datatype Promise = Promise(id: nat, result: TaskValue, haveResult: bool, task: Option<nat>)

  function NewPromise(id: nat): (p: Promise)
    ensures p.id == id && p.result == NoneV && !p.haveResult && p.task.None?
  {
    Promise(id, NoneV, false, None)
  }

  function SetResult(p: Promise, v: TaskValue): (q: Promise)
    ensures q.result == v && q.haveResult
    ensures q.id == p.id && q.task == p.task
  {
    p.(result := v, haveResult := true)
  }

  function SetTask(p: Promise, t: nat): (q: Promise)
    ensures q.task == Some(t)
    ensures q.id == p.id && q.result == p.result && q.haveResult == p.haveResult
  {
    p.(task := Some(t))
  }

  // ---------------------------------------------------------------------
  // task trampoline

  /** The outcome of `current.send(res)`: a yielded value, a
      StopIteration carrying the generator's return value, or any other
      exception, identified by the value thrown. */
  datatype Resumed = Yielded(v: TaskValue) | Stopped(v: TaskValue) | Threw(v: TaskValue)

  /** The trampoline's locals: the running generator, the stack of
      generators waiting on it, and the value to send next. */
  datatype Trampoline = Trampoline(current: Option<nat>, chain: seq<nat>, res: TaskValue)

  /** What one turn of the `while current` loop leads to: another turn,
      suspension of the task itself on a promise, the wait on an
      iterable of promises, or an exception leaving the task. */
  datatype TaskStep = Running(t: Trampoline) | AwaitPromise(p: nat, t: Trampoline)
                    | AwaitAll(items: seq<TaskValue>, t: Trampoline) | Failed(e: TaskValue)

  /** `task(g)`: anything but a generator ends the task at once. */
  function TaskStart(g: TaskValue): (r: Option<Trampoline>)
    ensures r.Some? <==> g.GenV?
    ensures r.Some? ==> r.value == Trampoline(Some(g.gen), [], NoneV)
  {
    if g.GenV? then Some(Trampoline(Some(g.gen), [], NoneV)) else None
  }

  /** The chain pop of the compiled client: an empty chain gives
      `undefined`, which ends the loop. */
  function PopChain(chain: seq<nat>): (r: (Option<nat>, seq<nat>))
    ensures |chain| == 0 ==> r == (None, [])
    ensures |chain| > 0 ==> r == (Some(chain[|chain| - 1]), chain[..|chain| - 1])
  {
    if |chain| == 0 then (None, []) else (Some(chain[|chain| - 1]), chain[..|chain| - 1])
  }

  /** One turn of the loop, given what sending `res` to `current` did.
      Only StopIteration is caught: any other exception from `send`
      leaves the loop and the task unchanged. */
  function Step(t: Trampoline, r: Resumed): (s: TaskStep)
    requires t.current.Some?
    ensures r.Yielded? && r.v.GenV? ==>
      s == Running(Trampoline(Some(r.v.gen), t.chain + [t.current.value], NoneV))
    ensures r.Stopped? ==> s.Running? && s.t.res == r.v && |s.t.chain| == if |t.chain| == 0 then 0 else |t.chain| - 1
    ensures r.Stopped? ==> (s.t.current.None? <==> |t.chain| == 0)
    ensures r.Yielded? && r.v.PromiseV? ==> s == AwaitPromise(r.v.promise, t)
    ensures r.Yielded? && r.v.IterV? ==> s == AwaitAll(r.v.items, t)
    ensures r.Yielded? && (r.v.PlainV? || r.v.NoneV?) ==>
      s == Running(Trampoline(t.current, t.chain, r.v))
    ensures r.Stopped? && |t.chain| == 0 ==> s == Running(Trampoline(None, [], r.v))
    ensures r.Stopped? && |t.chain| > 0 ==>
      s == Running(Trampoline(Some(t.chain[|t.chain| - 1]), t.chain[..|t.chain| - 1], r.v))
    ensures s.Failed? <==> r.Threw?
    ensures r.Threw? ==> s.e == r.v
  {
    match r
    case Threw(x) => Failed(x)
    case Stopped(v) =>
      var (next, rest) := PopChain(t.chain);
      Running(Trampoline(next, rest, v))
    case Yielded(v) =>
      match v
      case GenV(g) => Running(Trampoline(Some(g), t.chain + [t.current.value], NoneV))
      case IterV(items) => AwaitAll(items, t)
      case PromiseV(p) => AwaitPromise(p, t)
      case _ => Running(t.(res := v))
  }

  /** The task resumed with the value the promise delivered. */
  function ResumeAfter(s: TaskStep, x: TaskValue): (t: Trampoline)
    requires s.AwaitPromise?
    ensures t.current == s.t.current && t.chain == s.t.chain && t.res == x
  {
    s.t.(res := x)
  }

  /** Entering a nested generator and seeing it stop returns to the
      generator that yielded it, with the nested one's return value as
      the next value to send; the chain is as before. */
  lemma NestedRoundTrip(t: Trampoline, g: nat, v: TaskValue)
    requires t.current.Some?
    ensures var s := Step(t, Yielded(GenV(g)));
      s.Running? && s.t.current.Some? &&
      Step(s.t, Stopped(v)) == Running(Trampoline(t.current, t.chain, v))
  {
    var s := Step(t, Yielded(GenV(g)));
    assert (t.chain + [t.current.value])[..|t.chain|] == t.chain;
  }
}
