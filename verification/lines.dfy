/** Emitted JavaScript as a list of lines, with the state-machine lines
    kept structured so that their labels can be reasoned about.

    A `Case`, `Jump` or `SetState` line carries a `tag`: the nesting depth
    of the function whose dispatcher it belongs to. Rendering ignores the
    tag; it only tells apart the dispatchers of nested functions, whose
    labels restart at 1. */
module Lines {
  import opened Wrappers
  import opened Text

  datatype Body =
    | Text(s: string)
    | Case(tag: nat, state: nat)
    | Jump(tag: nat, target: nat, trail: string)
    | SetState(tag: nat, target: nat)

  datatype Line = Line(pad: nat, body: Body)

  /** A visitor's result: one string or a list of lines. */
  datatype Fragment<L> = One(text: string) | Many(lines: seq<L>)

  function BodyText(b: Body): string
  {
    match b
    case Text(s) => s
    case Case(_, n) => "case " + NatToString(n) + ":"
    case Jump(_, n, t) => "$ctx.next_state = " + NatToString(n) + "; continue;" + t
    case SetState(_, n) => "$ctx.next_state = " + NatToString(n) + ";"
  }

  function Render(l: Line): string
  {
    Spaces(l.pad) + BodyText(l.body)
  }

  function RenderAll(ls: seq<Line>): (r: seq<string>)
    ensures |r| == |ls|
    ensures forall i :: 0 <= i < |ls| ==> r[i] == Render(ls[i])
  {
    if |ls| == 0 then [] else [Render(ls[0])] + RenderAll(ls[1..])
  }

  function Plain(s: string): Line
  {
    Line(0, Text(s))
  }

  function Shift(l: Line, k: nat): Line
  {
    Line(l.pad + k, l.body)
  }

  /** Shifting a line by `k` prefixes exactly `k` spaces to its text. */
  lemma ShiftRender(l: Line, k: nat)
    ensures Render(Shift(l, k)) == Spaces(k) + Render(l)
  {
    SpacesAdd(k, l.pad);
  }

  /** `indent(lines, level=...)` on a list: every line shifted by `k`. */
  function IndentLines(ls: seq<Line>, k: nat): (r: seq<Line>)
    ensures |r| == |ls|
    ensures forall i :: 0 <= i < |ls| ==> r[i] == Shift(ls[i], k)
  {
    if |ls| == 0 then [] else [Shift(ls[0], k)] + IndentLines(ls[1..], k)
  }

  /** `indent` on a visitor's result: a string or every line of a list. */
  function IndentFrag(f: Fragment<Line>, k: nat): Fragment<Line>
  {
    match f
    case One(s) => One(Spaces(k) + s)
    case Many(ls) => Many(IndentLines(ls, k))
  }

  /** `extend(template, lines)`: a list is appended element-wise, a string
      as one line. */
  function Extend(tpl: seq<Line>, f: Fragment<Line>): seq<Line>
  {
    match f
    case One(s) => tpl + [Plain(s)]
    case Many(ls) => tpl + ls
  }

  function FragLines(f: Fragment<Line>): seq<Line>
  {
    Extend([], f)
  }

  /** The text a visitor's result gives when formatted into a string:
      a list formats as Python prints it. */
  function FragText(f: Fragment<Line>): string
  {
    match f
    case One(s) => s
    case Many(ls) => PyListRepr(RenderAll(ls))
  }

  // ---------------------------------------------------------------------
  // Labels

  /** The labels defined (as `case n:` lines) by dispatcher `d`. */
  function Cases(ls: seq<Line>, d: nat): multiset<nat>
  {
    if |ls| == 0 then multiset{}
    else (match ls[0].body
          case Case(t, n) => if t == d then multiset{n} else multiset{}
          case _ => multiset{}) + Cases(ls[1..], d)
  }

  /** The labels dispatcher `d` jumps to or suspends at. */
  function Targets(ls: seq<Line>, d: nat): set<nat>
  {
    if |ls| == 0 then {}
    else (match ls[0].body
          case Jump(t, n, _) => if t == d then {n} else {}
          case SetState(t, n) => if t == d then {n} else {}
          case _ => {}) + Targets(ls[1..], d)
  }

  /** Every labelled line belongs to dispatcher `d` or a deeper one. */
  predicate TagsFrom(ls: seq<Line>, d: nat)
  {
    forall i :: 0 <= i < |ls| ==> !ls[i].body.Text? ==> ls[i].body.tag >= d
  }

  /** The labels `lo+1 .. hi`, each once. */
  function Range(lo: nat, hi: nat): multiset<nat>
    decreases hi
  {
    if hi <= lo then multiset{} else Range(lo, hi - 1) + multiset{hi}
  }

  /** Every label in `s` lies in `lo+1 .. hi`. */
  predicate Within(s: set<nat>, lo: nat, hi: nat)
  {
    forall n :: n in s ==> lo < n <= hi
  }

  lemma RangeSplit(a: nat, b: nat, c: nat)
    requires a <= b <= c
    ensures Range(a, b) + Range(b, c) == Range(a, c)
  {
    forall n: nat ensures (Range(a, b) + Range(b, c))[n] == Range(a, c)[n] {
      RangeCount(a, b, n);
      RangeCount(b, c, n);
      RangeCount(a, c, n);
    }
  }

  /** `Range(lo, hi)` holds exactly the labels `lo+1 .. hi`, once each. */
  lemma {:induction false} RangeCount(lo: nat, hi: nat, n: nat)
    ensures Range(lo, hi)[n] == if lo < n <= hi then 1 else 0
    decreases hi
  {
    if hi > lo {
      RangeCount(lo, hi - 1, n);
    }
  }

  lemma {:induction false} CasesAppend(a: seq<Line>, b: seq<Line>, d: nat)
    ensures Cases(a + b, d) == Cases(a, d) + Cases(b, d)
    decreases |a|
  {
    if |a| == 0 {
      assert a + b == b;
    } else {
      assert (a + b)[1..] == a[1..] + b;
      CasesAppend(a[1..], b, d);
    }
  }

  lemma {:induction false} TargetsAppend(a: seq<Line>, b: seq<Line>, d: nat)
    ensures Targets(a + b, d) == Targets(a, d) + Targets(b, d)
    decreases |a|
  {
    if |a| == 0 {
      assert a + b == b;
    } else {
      assert (a + b)[1..] == a[1..] + b;
      TargetsAppend(a[1..], b, d);
    }
  }

  /** Indentation changes no label. */
  lemma {:induction false} IndentLabels(ls: seq<Line>, k: nat, d: nat)
    ensures Cases(IndentLines(ls, k), d) == Cases(ls, d)
    ensures Targets(IndentLines(ls, k), d) == Targets(ls, d)
    ensures TagsFrom(ls, d) ==> TagsFrom(IndentLines(ls, k), d)
    decreases |ls|
  {
    if |ls| > 0 {
      IndentLabels(ls[1..], k, d);
      assert IndentLines(ls, k)[1..] == IndentLines(ls[1..], k);
    }
  }

  /** Text lines define and target nothing. */
  lemma {:induction false} TextOnly(ls: seq<Line>, d: nat)
    requires forall i :: 0 <= i < |ls| ==> ls[i].body.Text?
    ensures Cases(ls, d) == multiset{} && Targets(ls, d) == {} && TagsFrom(ls, d)
    decreases |ls|
  {
    if |ls| > 0 {
      TextOnly(ls[1..], d);
    }
  }

  lemma CaseCharAt(p: nat, x: string)
    ensures (Spaces(p) + "case " + x + ":")[p] == 'c'
  {
  }

  lemma SpaceCharAt(q: nat, i: nat, y: string)
    requires i < q
    ensures (Spaces(q) + "case " + y + ":")[i] == ' '
  {
  }

  lemma PadPrefix(p: nat, q: nat, a: string, b: string, x: string, y: string)
    requires a == Spaces(p) + "case " + x + ":"
    requires b == Spaces(q) + "case " + y + ":"
    requires a == b
    ensures p == q
  {
    if p < q {
      CaseCharAt(p, x);
      SpaceCharAt(q, p, y);
      assert false;
    } else if q < p {
      CaseCharAt(q, y);
      SpaceCharAt(p, q, x);
      assert false;
    }
  }

  /** Rendering a case line recovers its label: two case lines render
      alike exactly when they carry the same label and padding. */
  lemma CaseRenderInjective(p: nat, q: nat, t: nat, u: nat, m: nat, n: nat)
    requires Render(Line(p, Case(t, m))) == Render(Line(q, Case(u, n)))
    ensures p == q && m == n
  {
    var a, b := Render(Line(p, Case(t, m))), Render(Line(q, Case(u, n)));
    PadPrefix(p, q, a, b, NatToString(m), NatToString(n));
    assert Spaces(p) + "case " == Spaces(q) + "case ";
    var ms, ns := NatToString(m), NatToString(n);
    assert a == (Spaces(p) + "case ") + ms + ":";
    assert b == (Spaces(q) + "case ") + ns + ":";
    assert |ms| == |ns|;
    forall i | 0 <= i < |ms| ensures ms[i] == ns[i] {
      assert ms[i] == a[p + 5 + i];
      assert ns[i] == b[p + 5 + i];
    }
    assert ms == ns;
    NatToStringInjective(m, n);
  }

  // ---------------------------------------------------------------------
  // The head line of an `except` handler

  /** How many times `c` occurs in `s`. */
  function Occurrences(s: string, c: char): (n: nat)
    ensures n <= |s|
  {
    if |s| == 0 then 0 else (if s[0] == c then 1 else 0) + Occurrences(s[1..], c)
  }

  lemma {:induction false} OccurrencesAppend(a: string, b: string, c: char)
    ensures Occurrences(a + b, c) == Occurrences(a, c) + Occurrences(b, c)
    decreases |a|
  {
    if |a| == 0 {
      assert a + b == b;
    } else {
      assert (a + b)[1..] == a[1..] + b;
      OccurrencesAppend(a[1..], b, c);
    }
  }

  lemma {:induction false} OccurrencesAbsent(s: string, c: char)
    requires c !in s
    ensures Occurrences(s, c) == 0
    decreases |s|
  {
    if |s| > 0 {
      assert s[0] != c;
      OccurrencesAbsent(s[1..], c);
    }
  }

  /** How many more `open` than `close` characters `s` holds. */
  function Balance(s: string, open: char, close: char): int
  {
    Occurrences(s, open) as int - Occurrences(s, close) as int
  }

  lemma BalanceAppend(a: string, b: string, open: char, close: char)
    ensures Balance(a + b, open, close) == Balance(a, open, close) + Balance(b, open, close)
  {
    OccurrencesAppend(a, b, open);
    OccurrencesAppend(a, b, close);
  }

  /** Text holding no bracket character of either kind balances. */
  lemma BracketFree(s: string)
    requires '(' !in s && ')' !in s && '{' !in s && '}' !in s
    ensures Balance(s, '(', ')') == 0 && Balance(s, '{', '}') == 0
  {
    OccurrencesAbsent(s, '(');
    OccurrencesAbsent(s, ')');
    OccurrencesAbsent(s, '{');
    OccurrencesAbsent(s, '}');
  }

  /** Appending `b` adds its bracket balances. */
  lemma Balances(a: string, b: string)
    ensures Balance(a + b, '(', ')') == Balance(a, '(', ')') + Balance(b, '(', ')')
    ensures Balance(a + b, '{', '}') == Balance(a, '{', '}') + Balance(b, '{', '}')
  {
    BalanceAppend(a, b, '(', ')');
    BalanceAppend(a, b, '{', '}');
  }

  /** The start of every handler's test: `if (__exception__`. */
  const ExceptionTest := "if " + "(" + "__exception__"
  const TypedTest := ExceptionTest + ".type == "
  const UntypedTest := ExceptionTest + ")" + " " + "{"
  const CloseTest := ")" + " " + "{"

  /** A single bracket character's balance. */
  lemma Bracket(c: char)
    ensures Balance([c], '(', ')') == (if c == '(' then 1 else if c == ')' then -1 else 0)
    ensures Balance([c], '{', '}') == (if c == '{' then 1 else if c == '}' then -1 else 0)
  {
    assert [c][1..] == [];
  }

  lemma FreeTypeTest()
    ensures Balance(".type == ", '(', ')') == 0 && Balance(".type == ", '{', '}') == 0
  {
    BracketFree(".type == ");
  }

  lemma FreeName()
    ensures Balance("__exception__", '(', ')') == 0 && Balance("__exception__", '{', '}') == 0
  {
    BracketFree("__exception__");
  }

  lemma FreeShort()
    ensures Balance("if ", '(', ')') == 0 && Balance("if ", '{', '}') == 0
    ensures Balance(" ", '(', ')') == 0 && Balance(" ", '{', '}') == 0
  {
    BracketFree("if ");
    BracketFree(" ");
  }

  lemma OpenPiece()
    ensures Balance(ExceptionTest, '(', ')') == 1 && Balance(ExceptionTest, '{', '}') == 0
  {
    FreeShort();
    FreeName();
    Bracket('(');
    Balances("if ", "(");
    Balances("if " + "(", "__exception__");
  }

  lemma TypedPiece()
    ensures Balance(TypedTest, '(', ')') == 1 && Balance(TypedTest, '{', '}') == 0
  {
    OpenPiece();
    FreeTypeTest();
    Balances(ExceptionTest, ".type == ");
  }

  lemma UntypedPiece()
    ensures Balance(UntypedTest, '(', ')') == 0 && Balance(UntypedTest, '{', '}') == 1
  {
    OpenPiece();
    FreeShort();
    Bracket(')');
    Bracket('{');
    Balances(ExceptionTest, ")");
    Balances(ExceptionTest + ")", " ");
    Balances(ExceptionTest + ")" + " ", "{");
  }

  lemma ClosePiece()
    ensures Balance(CloseTest, '(', ')') == -1 && Balance(CloseTest, '{', '}') == 1
  {
    FreeShort();
    Bracket(')');
    Bracket('{');
    Balances(")", " ");
    Balances(")" + " ", "{");
  }

  lemma HeadPieces()
    ensures Balance(TypedTest, '(', ')') == 1 && Balance(TypedTest, '{', '}') == 0
    ensures Balance(UntypedTest, '(', ')') == 0 && Balance(UntypedTest, '{', '}') == 1
    ensures Balance(CloseTest, '(', ')') == -1 && Balance(CloseTest, '{', '}') == 1
  {
    TypedPiece();
    UntypedPiece();
    ClosePiece();
  }

  /** The head of a handler as both translators write it: a typed
      handler's test is left without its closing parenthesis and its
      opening brace. */
  function HandlerHeadAsWritten(typeRepr: Option<string>): string
  {
    if typeRepr.Some? then TypedTest + typeRepr.value else UntypedTest
  }

  /** The head as evidently intended: the test closed and the block
      opened, as for an untyped handler. */
  function HandlerHead(typeRepr: Option<string>): string
  {
    if typeRepr.Some? then TypedTest + typeRepr.value + CloseTest else UntypedTest
  }

  /** For a type text that balances its own brackets, the corrected head
      closes every parenthesis it opens and opens exactly the one brace
      that the handler's last line `}` closes. */
  lemma HandlerHeadBalanced(typeRepr: Option<string>)
    requires typeRepr.Some? ==> Balance(typeRepr.value, '(', ')') == 0 && Balance(typeRepr.value, '{', '}') == 0
    ensures Balance(HandlerHead(typeRepr), '(', ')') == 0
    ensures Balance(HandlerHead(typeRepr), '{', '}') == 1
  {
    HeadPieces();
    if typeRepr.Some? {
      Balances(TypedTest, typeRepr.value);
      Balances(TypedTest + typeRepr.value, CloseTest);
    }
  }

  /** Counter-example: for a typed handler the written head leaves one
      parenthesis open and opens no brace, so the handler's closing `}`
      has nothing to close. */
  lemma HandlerHeadUnbalanced(t: string)
    requires Balance(t, '(', ')') == 0 && Balance(t, '{', '}') == 0
    ensures Balance(HandlerHeadAsWritten(Some(t)), '(', ')') == 1
    ensures Balance(HandlerHeadAsWritten(Some(t)), '{', '}') == 0
  {
    HeadPieces();
    Balances(TypedTest, t);
  }
}
