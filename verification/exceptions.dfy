/** The exception classes of the compiled runtime
    (avalon/compiler/exceptions.py): one base class whose constructor
    normalises the message and whose repr joins class name and message,
    and six subclasses that add nothing. */
module Exceptions {
  import opened JsValues

  datatype Kind =
    | BaseException
    | StopIteration
    | RuntimeError
    | ValueError
    | NotImplemented
    | TypeError
    | AttributeError

  /** The class's `__name__`. */
  function KindName(k: Kind): (r: string)
    ensures ':' !in r && |r| > 0
  {
    match k
    case BaseException => "Exception"
    case StopIteration => "StopIteration"
    case RuntimeError => "RuntimeError"
    case ValueError => "ValueError"
    case NotImplemented => "NotImplemented"
    case TypeError => "TypeError"
    case AttributeError => "AttributeError"
  }

  /** An exception instance: its class and its `message` attribute. */
  datatype Exc = Exc(kind: Kind, message: Val)

  /** `K(message)`: `message or ''` keeps a truthy message and turns a
      missing or falsy one into the empty string. Every class shares
      this constructor. */
  function New(kind: Kind, message: Val): (e: Exc)
    ensures e.kind == kind
    ensures Truthy(message) ==> e.message == message
    ensures !Truthy(message) ==> e.message == Str("")
  {
    Exc(kind, if Truthy(message) then message else Str(""))
  }

  /** What a runtime call ends in: a value returned, an exception of
      the runtime's classes thrown, or an error the JavaScript engine
      itself throws (a property read on `undefined` or `null`). */
  datatype Outcome<T> = Returned(v: T) | Raised(e: Exc) | HostError

  /** `__repr__` as evidently intended: the class name, a colon, then the
      message. As written it reads `__name__` on the instance, which has
      none (`Builtins.ReprAsWrittenRaises`). */
  function Repr(e: Exc): string
  {
    KindName(e.kind) + ":" + ToStr(e.message)
  }

  /** Index of the first `:` in `s` (or `|s|`). */
  function FirstColon(s: string): (i: nat)
    ensures i <= |s|
    ensures forall j :: 0 <= j < i ==> s[j] != ':'
    ensures i < |s| ==> s[i] == ':'
    decreases |s|
  {
    if |s| == 0 || s[0] == ':' then 0 else 1 + FirstColon(s[1..])
  }

  /** Reads a repr back into class name and message text. */
  function ParseRepr(s: string): (r: (string, string))
  {
    var i := FirstColon(s);
    if i < |s| then (s[..i], s[i + 1..]) else (s, "")
  }

  function KindOfName(name: string): (k: Kind)
  {
    if name == "StopIteration" then StopIteration
    else if name == "RuntimeError" then RuntimeError
    else if name == "ValueError" then ValueError
    else if name == "NotImplemented" then NotImplemented
    else if name == "TypeError" then TypeError
    else if name == "AttributeError" then AttributeError
    else BaseException
  }

  lemma KindNameRoundTrip(k: Kind)
    ensures KindOfName(KindName(k)) == k
  {
  }

  lemma FirstColonAfter(a: string, b: string)
    requires ':' !in a
    ensures FirstColon(a + ":" + b) == |a|
  {
    var s := a + ":" + b;
    assert s[|a|] == ':';
    assert forall j :: 0 <= j < |a| ==> s[j] == a[j];
  }

  /** The repr determines the class and the printed message: reading it
      back at its first colon gives both. */
  lemma ReprRoundTrip(e: Exc)
    ensures ParseRepr(Repr(e)) == (KindName(e.kind), ToStr(e.message))
    ensures KindOfName(ParseRepr(Repr(e)).0) == e.kind
  {
    var a, b := KindName(e.kind), ToStr(e.message);
    FirstColonAfter(a, b);
    var s := a + ":" + b;
    assert s[..|a|] == a;
    assert s[|a| + 1..] == b;
    KindNameRoundTrip(e.kind);
  }

  /** The subclasses add no behaviour: built from the same message, two
      exceptions of any classes hold the same message, and their reprs
      differ only in the class name before the colon. */
  lemma SubclassesShareRules(k1: Kind, k2: Kind, message: Val)
    ensures New(k1, message).message == New(k2, message).message
    ensures ParseRepr(Repr(New(k1, message))).1 == ParseRepr(Repr(New(k2, message))).1
    ensures Repr(New(k1, message)) == Repr(New(k2, message)) <==> k1 == k2
  {
    ReprRoundTrip(New(k1, message));
    ReprRoundTrip(New(k2, message));
  }

  /** Constructed without a message, an exception prints as its class
      name and a colon. */
  lemma ReprWithoutMessage(k: Kind)
    ensures Repr(New(k, Undefined)) == KindName(k) + ":"
  {
  }
}
