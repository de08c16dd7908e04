/** JavaScript values as the route handlers see them, and the number-to-string
    conversion that `+` with a string performs on them. Numbers are integers. */
module Js {

  datatype Option<T> = None | Some(value: T)

  datatype Value =
    | Undefined
    | Null
    | Bool(b: bool)
    | Num(n: int)
    | Str(s: string)
    | Arr(items: seq<Value>)
    | Obj(props: map<string, Value>)

  /** A plain object whose properties a handler reads and writes. */
  type Record = map<string, Value>

  /** `r.k`: a missing property reads as undefined. */
  function Get(r: Record, k: string): Value
  {
    if k in r then r[k] else Undefined
  }

  /** `v.k` for a value that is an object; anything else has no such property here. */
  function Prop(v: Value, k: string): Value
  {
    if v.Obj? then Get(v.props, k) else Undefined
  }

  predicate IsDigit(c: char)
  {
    '0' <= c <= '9'
  }

  predicate AllDigits(s: string)
  {
    forall i :: 0 <= i < |s| ==> IsDigit(s[i])
  }

  function DigitChar(d: nat): (c: char)
    requires d < 10
    ensures IsDigit(c) && c as int - '0' as int == d
  {
    ('0' as int + d) as char
  }

  /** Decimal digits of a natural number, most significant first, no leading zero. */
  function NatToString(n: nat): (s: string)
    ensures |s| >= 1 && AllDigits(s)
    ensures |s| > 1 ==> s[0] != '0'
    decreases n
  {
    if n < 10 then [DigitChar(n)] else NatToString(n / 10) + [DigitChar(n % 10)]
  }

  /** `String(i)` for an integer number. */
  function IntToString(i: int): (s: string)
    ensures |s| >= 1
    ensures i < 0 <==> s[0] == '-'
    ensures i >= 0 ==> AllDigits(s)
    ensures i >= 0 && |s| > 1 ==> s[0] != '0'
    ensures i < 0 ==> |s| >= 2 && AllDigits(s[1..])
  {
    if i < 0 then "-" + NatToString(-i) else NatToString(i)
  }

  /** The value a string of decimal digits denotes. */
  function DigitsValue(s: string): nat
    requires AllDigits(s)
  {
    if s == [] then 0 else DigitsValue(s[..|s| - 1]) * 10 + (s[|s| - 1] as int - '0' as int)
  }

  /** Reads back an optionally signed decimal integer. */
  function ParseInt(s: string): Option<int>
  {
    if |s| > 1 && s[0] == '-' && AllDigits(s[1..]) then Some(0 - DigitsValue(s[1..]) as int)
    else if |s| > 0 && AllDigits(s) then Some(DigitsValue(s))
    else None
  }

  lemma {:induction false} NatToStringRoundTrip(n: nat)
    ensures DigitsValue(NatToString(n)) == n
    decreases n
  {
    if n >= 10 {
      var s := NatToString(n);
      NatToStringRoundTrip(n / 10);
      assert s[..|s| - 1] == NatToString(n / 10);
    }
  }

  lemma IntToStringRoundTrip(i: int)
    ensures ParseInt(IntToString(i)) == Some(i)
  {
    if i < 0 {
      var s := IntToString(i);
      assert s[1..] == NatToString(-i);
      NatToStringRoundTrip(-i);
    } else {
      assert IntToString(i) == NatToString(i);
      NatToStringRoundTrip(i);
    }
  }

  /** How many times `c` occurs in `s`. */
  function Occurrences(s: string, c: char): nat
  {
    if s == [] then 0 else Occurrences(s[..|s| - 1], c) + (if s[|s| - 1] == c then 1 else 0)
  }

  lemma {:induction false} OccurrencesAppend(s: string, t: string, c: char)
    ensures Occurrences(s + t, c) == Occurrences(s, c) + Occurrences(t, c)
    decreases |t|
  {
    if t == [] {
      assert s + t == s;
    } else {
      assert (s + t)[..|s + t| - 1] == s + t[..|t| - 1];
      OccurrencesAppend(s, t[..|t| - 1], c);
    }
  }

  /** `String(v)`, the conversion `v + "..."` applies to its left operand. */
  function ToJsString(v: Value): (r: string)
    ensures v.Str? ==> r == v.s
    ensures v.Num? ==> ParseInt(r) == Some(v.n)
    ensures v.Arr? ==> Occurrences(r, ',') >= |v.items| - 1
    decreases v, 1, 0
  {
    match v
    case Undefined => "undefined"
    case Null => "null"
    case Bool(b) => if b then "true" else "false"
    case Num(n) => IntToStringRoundTrip(n); IntToString(n)
    case Str(s) => s
    case Arr(items) => JoinItems(items, 0)
    case Obj(_) => "[object Object]"
  }

  /** `Array.prototype.join` with ",": undefined and null elements become empty. */
  function JoinItems(items: seq<Value>, i: nat): (r: string)
    requires i <= |items|
    ensures i == |items| ==> r == ""
    ensures Occurrences(r, ',') >= |items| - i - 1
    decreases Arr(items), 0, |items| - i
  {
    if i == |items| then ""
    else
      var head := if items[i].Undefined? || items[i].Null? then "" else ToJsString(items[i]);
      if i + 1 == |items| then head
      else
        var rest := JoinItems(items, i + 1);
        OccurrencesAppend(head + ",", rest, ',');
        OccurrencesAppend(head, ",", ',');
        head + "," + rest
  }
}
