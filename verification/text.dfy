/** String helpers shared by the compilers: padding, joining, decimal
    numerals and Python's printed form of strings and lists of strings. */
module Text {

  /** `k` space characters. */
  function Spaces(k: nat): (r: string)
    ensures |r| == k
    ensures forall i :: 0 <= i < k ==> r[i] == ' '
  {
    if k == 0 then "" else Spaces(k - 1) + " "
  }

  lemma {:induction false} SpacesAdd(a: nat, b: nat)
    ensures Spaces(a + b) == Spaces(a) + Spaces(b)
  {
    var l, r := Spaces(a + b), Spaces(a) + Spaces(b);
    assert |l| == |r|;
    forall i | 0 <= i < |l| ensures l[i] == r[i] {
      if i < a { assert r[i] == Spaces(a)[i]; } else { assert r[i] == Spaces(b)[i - a]; }
    }
  }

  /** Python's `sep.join(parts)`. */
  function Join(sep: string, parts: seq<string>): string
  {
    if |parts| == 0 then ""
    else if |parts| == 1 then parts[0]
    else parts[0] + sep + Join(sep, parts[1..])
  }

  lemma JoinSingle(sep: string, p: string)
    ensures Join(sep, [p]) == p
  {
  }

  function DigitChar(d: nat): (c: char)
    requires d < 10
    ensures '0' <= c <= '9'
  {
    "0123456789"[d]
  }

  function DigitValue(c: char): nat
  {
    if '0' <= c <= '9' then (c as int - '0' as int) as nat else 0
  }

  /** Python's `str(n)` for a natural number: its decimal numeral. */
  function NatToString(n: nat): (r: string)
    ensures |r| >= 1
    ensures forall i :: 0 <= i < |r| ==> '0' <= r[i] <= '9'
    decreases n
  {
    if n < 10 then [DigitChar(n)] else NatToString(n / 10) + [DigitChar(n % 10)]
  }

  /** Python's `str(n)` for any integer. */
  function IntToString(n: int): string
  {
    if n < 0 then "-" + NatToString(-n) else NatToString(n)
  }

  /** Reads back a decimal numeral. */
  function ParseNat(s: string): nat
    decreases |s|
  {
    if |s| == 0 then 0 else ParseNat(s[..|s| - 1]) * 10 + DigitValue(s[|s| - 1])
  }

  lemma DigitRoundTrip(d: nat)
    requires d < 10
    ensures DigitValue(DigitChar(d)) == d
  {
  }

  /** Reading the numeral of `n` gives `n` back. */
  lemma {:induction false} ParseNatToString(n: nat)
    ensures ParseNat(NatToString(n)) == n
    decreases n
  {
    var s := NatToString(n);
    if n < 10 {
      DigitRoundTrip(n);
      assert s[..0] == "";
    } else {
      ParseNatToString(n / 10);
      DigitRoundTrip(n % 10);
      assert s[..|s| - 1] == NatToString(n / 10);
    }
  }

  /** Distinct numbers have distinct numerals. */
  lemma NatToStringInjective(a: nat, b: nat)
    requires NatToString(a) == NatToString(b)
    ensures a == b
  {
    ParseNatToString(a);
    ParseNatToString(b);
  }

  /** `s.replace('\n', '\\n\\\n')`, applied by string-literal emission. */
  function EscapeNewlines(s: string): (r: string)
    ensures '\n' !in s ==> r == s
  {
    if |s| == 0 then ""
    else (if s[0] == '\n' then "\\n\\\n" else [s[0]]) + EscapeNewlines(s[1..])
  }

  function HexDigit(d: nat): char
    requires d < 16
  {
    "0123456789abcdef"[d]
  }

  /** One character as Python's `repr` of a string prints it, given the
      quote character in use. */
  function ReprChar(c: char, quote: char): string
  {
    if c == quote || c == '\\' then ['\\', c]
    else if c == '\n' then "\\n"
    else if c == '\r' then "\\r"
    else if c == '\t' then "\\t"
    else if c < ' ' || c as int == 127 then
      var code := c as int;
      ['\\', 'x', HexDigit(code / 16), HexDigit(code % 16)]
    else [c]
  }

  function ReprBody(s: string, quote: char): string
  {
    if |s| == 0 then "" else ReprChar(s[0], quote) + ReprBody(s[1..], quote)
  }

  /** Python's `repr(s)` for an ASCII string: single quotes unless the
      text holds a single quote and no double quote. */
  function PyRepr(s: string): (r: string)
    ensures |r| >= 2
  {
    var q := if '\'' in s && '"' !in s then '"' else '\'';
    [q] + ReprBody(s, q) + [q]
  }

  function ReprAll(items: seq<string>): (r: seq<string>)
    ensures |r| == |items|
  {
    if |items| == 0 then [] else [PyRepr(items[0])] + ReprAll(items[1..])
  }

  /** Python's `str(list_of_strings)`. */
  function PyListRepr(items: seq<string>): (r: string)
    ensures |r| >= 2 && r[0] == '[' && r[|r| - 1] == ']'
  {
    "[" + Join(", ", ReprAll(items)) + "]"
  }

  /** `s.split('.')[-1]`: the text after the last dot. */
  function LastComponent(s: string): (r: string)
    ensures '.' !in r
    ensures |r| <= |s| && r == s[|s| - |r|..]
    decreases |s|
  {
    if |s| == 0 then ""
    else if s[|s| - 1] == '.' then ""
    else LastComponent(s[..|s| - 1]) + [s[|s| - 1]]
  }

  /** `json.dumps` of a list of strings holding no character JSON escapes. */
  function JsonStringList(items: seq<string>): string
  {
    "[" + Join(", ", QuoteAll(items)) + "]"
  }

  function QuoteAll(items: seq<string>): (r: seq<string>)
    ensures |r| == |items|
  {
    if |items| == 0 then [] else ["\"" + items[0] + "\""] + QuoteAll(items[1..])
  }
}
