/** JavaScript values as the handlers receive them from a parsed JSON body, and the
    built-in string operations they apply to them: truthiness, `String(v)` (template
    literals and `toString()`), `trim()`, `replace(/\s+/g, '')` and the decimal rendering
    of integers. */
module Js {

  datatype Option<T> = None | Some(value: T)

  /** A value destructured from a parsed JSON body. Numbers are integers here; an object
      or an array stands for the text its `toString()` yields. */
  datatype Value =
    | Undefined
    | Null
    | Bool(b: bool)
    | Num(n: int)
    | Str(s: string)
    | Obj(shown: string)

  /** The result of `JSON.parse(event.body)` followed by destructuring. `Malformed` is a
      body that `JSON.parse` rejects or that parses to `null` (destructuring `null`
      throws); both raise an exception whose message is carried along. */
  datatype Parsed<T> = Malformed(message: string) | Parsed(fields: T)

  /** An exception raised inside a handler and caught by its `catch`. */
  datatype Fault =
    | ParseError(message: string)     // JSON.parse or destructuring threw
    | NotAFunction(callee: string)    // a string method called on a value that is not a string
    | NotAnObject(callee: string)     // null passed where an object is expected
    | ServiceError(message: string)   // an external service call threw

  /** `!!v` in JavaScript. */
  predicate Truthy(v: Value)
  {
    match v
    case Undefined => false
    case Null => false
    case Bool(b) => b
    case Num(n) => n != 0
    case Str(s) => s != ""
    case Obj(_) => true
  }

  /** `String(v)`, which is also what a template literal `${v}` and `v.toString()` give. */
  function ToStr(v: Value): string
  {
    match v
    case Undefined => "undefined"
    case Null => "null"
    case Bool(b) => if b then "true" else "false"
    case Num(n) => IntStr(n)
    case Str(s) => s
    case Obj(shown) => shown
  }

  /** The characters ECMAScript counts as WhiteSpace or LineTerminator: those `trim()`
      removes and `\s` matches. */
  predicate IsWhitespace(c: char)
  {
    ('\U{9}' <= c <= '\U{D}') || c == '\U{20}' || c == '\U{A0}' || c == '\U{1680}' ||
    ('\U{2000}' <= c <= '\U{200A}') || c == '\U{2028}' || c == '\U{2029}' || c == '\U{202F}' ||
    c == '\U{205F}' || c == '\U{3000}' || c == '\U{FEFF}'
  }

  predicate Blank(s: string)
  {
    forall k :: 0 <= k < |s| ==> IsWhitespace(s[k])
  }

  /** The first position at or after `i` that does not hold whitespace (or `|s|`). */
  function SkipForward(s: string, i: nat): (j: nat)
    requires i <= |s|
    ensures i <= j <= |s|
    ensures forall k :: i <= k < j ==> IsWhitespace(s[k])
    ensures j < |s| ==> !IsWhitespace(s[j])
    decreases |s| - i
  {
    if i == |s| || !IsWhitespace(s[i]) then i else SkipForward(s, i + 1)
  }

  /** The end of `s[lo..j]` once its trailing whitespace is dropped. */
  function SkipBackward(s: string, lo: nat, j: nat): (r: nat)
    requires lo <= j <= |s|
    ensures lo <= r <= j
    ensures forall k :: r <= k < j ==> IsWhitespace(s[k])
    ensures r > lo ==> !IsWhitespace(s[r - 1])
    decreases j
  {
    if j == lo || !IsWhitespace(s[j - 1]) then j else SkipBackward(s, lo, j - 1)
  }

  /** `s.trim()`: the slice of `s` between its leading and its trailing whitespace. It is
      empty exactly when `s` is all whitespace, and otherwise begins and ends with a
      character that is not whitespace. */
  function Trim(s: string): (r: string)
    ensures r == "" <==> Blank(s)
    ensures r != "" ==> !IsWhitespace(r[0]) && !IsWhitespace(r[|r| - 1])
    ensures exists i, j :: 0 <= i <= j <= |s| && r == s[i..j] && Blank(s[..i]) && Blank(s[j..])
  {
    var i := SkipForward(s, 0);
    var j := SkipBackward(s, i, |s|);
    assert Blank(s[..i]) && Blank(s[j..]);
    s[i..j]
  }

  /** `s.replace(/\s+/g, '')`: every whitespace character removed, every other one kept. */
  function RemoveWhitespace(s: string): (r: string)
    ensures forall k :: 0 <= k < |r| ==> !IsWhitespace(r[k])
    ensures forall c :: !IsWhitespace(c) ==> multiset(r)[c] == multiset(s)[c]
    ensures (forall k :: 0 <= k < |s| ==> !IsWhitespace(s[k])) ==> r == s
  {
    if s == [] then []
    else
      var rest := RemoveWhitespace(s[1..]);
      assert s == [s[0]] + s[1..];
      assert multiset(s) == multiset{s[0]} + multiset(s[1..]);
      if IsWhitespace(s[0]) then rest
      else
        assert multiset([s[0]] + rest) == multiset{s[0]} + multiset(rest);
        [s[0]] + rest
  }

  /** The removal works character by character, left to right: the kept characters of a
      concatenation are those of each part, in order. With the contract above on a single
      character this fixes the result completely. */
  lemma {:induction false} RemoveWhitespaceAppend(a: string, b: string)
    ensures RemoveWhitespace(a + b) == RemoveWhitespace(a) + RemoveWhitespace(b)
    decreases |a|
  {
    if a == [] {
      assert a + b == b;
    } else {
      assert (a + b)[0] == a[0];
      assert (a + b)[1..] == a[1..] + b;
      RemoveWhitespaceAppend(a[1..], b);
    }
  }

  predicate IsDigit(c: char)
  {
    '0' <= c <= '9'
  }

  predicate AllDigits(s: string)
  {
    forall k :: 0 <= k < |s| ==> IsDigit(s[k])
  }

  function Digit(d: nat): (c: char)
    requires d < 10
  {
    ('0' as int + d) as char
  }

  /** The decimal rendering of a non-negative integer, as `${n}` gives it. */
  function NatStr(n: nat): (r: string)
    ensures |r| >= 1 && AllDigits(r)
    decreases n
  {
    if n < 10 then [Digit(n)] else NatStr(n / 10) + [Digit(n % 10)]
  }

  /** `String(n)` for an integer: a minus sign before the digits of a negative number. */
  function IntStr(n: int): string
  {
    if n < 0 then "-" + NatStr(-n) else NatStr(n)
  }

  /** The number a string of decimal digits denotes. */
  function DigitsValue(s: string): nat
    requires AllDigits(s)
  {
    if s == [] then 0
    else DigitsValue(s[..|s| - 1]) * 10 + (s[|s| - 1] as int - '0' as int)
  }

  /** Reading back the decimal rendering of a number gives the number. */
  lemma {:induction false} NatStrRoundTrip(n: nat)
    ensures DigitsValue(NatStr(n)) == n
    decreases n
  {
    if n >= 10 {
      var r := NatStr(n);
      assert r[..|r| - 1] == NatStr(n / 10);
      NatStrRoundTrip(n / 10);
    }
  }

  /** Distinct numbers have distinct decimal renderings. */
  lemma NatStrInjective(a: nat, b: nat)
    requires NatStr(a) == NatStr(b)
    ensures a == b
  {
    NatStrRoundTrip(a);
    NatStrRoundTrip(b);
  }
}
