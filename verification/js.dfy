/** JSON-like JavaScript values, for the places where the client inspects the shape of
    data it received (a role given as a string or as an object, a missing field, ...).
    Numbers are integers. */
module Js {
  import Strings

  datatype Value =
    | Undefined
    | Null
    | Bool(b: bool)
    | Num(n: int)
    | Str(s: string)
    | Arr(items: seq<Value>)
    | Obj(fields: map<string, Value>)

  /** JavaScript truthiness: false, 0, "", null and undefined are falsy; arrays and objects are truthy. */
  predicate Truthy(v: Value) {
    match v
    case Undefined => false
    case Null => false
    case Bool(b) => b
    case Num(n) => n != 0
    case Str(s) => s != ""
    case Arr(_) => true
    case Obj(_) => true
  }

  predicate IsNullish(v: Value) {
    v.Undefined? || v.Null?
  }

  /** `v.key` on a value that is not null or undefined (reading a property of those throws).
      Only plain objects carry the fields the client reads; on any other value they are undefined. */
  function Get(v: Value, key: string): (r: Value)
    requires !IsNullish(v)
    ensures v.Obj? && key in v.fields ==> r == v.fields[key]
    ensures !(v.Obj? && key in v.fields) ==> r == Undefined
  {
    if v.Obj? && key in v.fields then v.fields[key] else Undefined
  }

  /** The own fields an object spread (`{...v}`) copies. Only plain objects are modelled as
      contributing fields. */
  function Fields(v: Value): map<string, Value> {
    if v.Obj? then v.fields else map[]
  }

  function DigitChar(d: int): char
    requires 0 <= d < 10
  {
    ('0' as int + d) as char
  }

  /** The decimal text of a natural number. */
  function NatDecimal(n: nat): (r: string)
    ensures |r| >= 1
    ensures forall i :: 0 <= i < |r| ==> '0' <= r[i] <= '9'
  {
    if n < 10 then [DigitChar(n)] else NatDecimal(n / 10) + [DigitChar(n % 10)]
  }

  /** `String(n)` for an integer. */
  function Decimal(n: int): (r: string)
    ensures r != []
  {
    if n < 0 then "-" + NatDecimal(-n) else NatDecimal(n)
  }

  /** `String(v)`. Arrays print their elements separated by commas, with null and undefined
      elements printed as empty text; plain objects print as "[object Object]". */
  function ToStr(v: Value): string
    decreases v, 1
  {
    match v
    case Undefined => "undefined"
    case Null => "null"
    case Bool(b) => if b then "true" else "false"
    case Num(n) => Decimal(n)
    case Str(s) => s
    case Arr(items) => JoinItems(v, 0)
    case Obj(_) => "[object Object]"
  }

  /** The text of array elements `i..` of `v`, each preceded by a comma except the first. */
  function JoinItems(v: Value, i: nat): string
    requires v.Arr? && i <= |v.items|
    decreases v, 0, |v.items| - i
  {
    if i == |v.items| then ""
    else
      var item := v.items[i];
      (if i > 0 then "," else "") + (if IsNullish(item) then "" else ToStr(item)) + JoinItems(v, i + 1)
  }

  /** `v || ''` where the result is then used as text: a truthy value must already be text,
      since the string methods called next do not exist on other values. */
  predicate TextOrFalsy(v: Value) {
    !Truthy(v) || v.Str?
  }

  function TextOrEmpty(v: Value): string
    requires TextOrFalsy(v)
  {
    if Truthy(v) then v.s else ""
  }

  /** What `parseInt` returns: an integer, or NaN when no digit leads the text. */
  datatype IntParse = Parsed(n: int) | NaN

  predicate IsDigit(c: char) {
    '0' <= c <= '9'
  }

  /** The longest prefix of `s` made of decimal digits. */
  function LeadingDigits(s: string): string
  {
    if s != [] && IsDigit(s[0]) then [s[0]] + LeadingDigits(s[1..]) else []
  }

  /** The number a string of decimal digits denotes. */
  function DigitsValue(ds: string): int
  {
    if ds == [] then 0 else DigitsValue(ds[..|ds| - 1]) * 10 + (ds[|ds| - 1] as int - '0' as int)
  }

  /** The digits that lead `u`, read as a number; NaN when there are none. */
  function ParseDigits(u: string): IntParse {
    var ds := LeadingDigits(u);
    if ds == [] then NaN else Parsed(DigitsValue(ds))
  }

  function Negated(p: IntParse): IntParse {
    if p.NaN? then NaN else Parsed(-p.n)
  }

  /** An optional sign, then digits. */
  function ParseSigned(t: string): IntParse {
    if t != [] && t[0] == '-' then Negated(ParseDigits(t[1..]))
    else if t != [] && t[0] == '+' then ParseDigits(t[1..])
    else ParseDigits(t)
  }

  /** `parseInt(s)` in base ten: leading white space is skipped, then an optional sign, then as
      many digits as follow; anything after them is ignored. */
  function ParseIntText(s: string): IntParse {
    ParseSigned(Strings.TrimStart(s))
  }

  /** `parseInt(v)`: the value's text, parsed. */
  function ParseInt(v: Value): IntParse {
    ParseIntText(ToStr(v))
  }

  /** The digits that lead `ds + rest`, when `ds` is all digits and `rest` does not start with one. */
  lemma {:induction false} LeadingDigitsThen(ds: string, rest: string)
    requires forall i :: 0 <= i < |ds| ==> IsDigit(ds[i])
    requires rest == [] || !IsDigit(rest[0])
    ensures LeadingDigits(ds + rest) == ds
  {
    if ds != [] {
      assert (ds + rest)[1..] == ds[1..] + rest;
      LeadingDigitsThen(ds[1..], rest);
    } else {
      assert ds + rest == rest;
    }
  }

  lemma {:induction false} DigitsValueOfDecimal(n: nat)
    ensures DigitsValue(NatDecimal(n)) == n
  {
    if n >= 10 {
      DigitsValueOfDecimal(n / 10);
      var ds := NatDecimal(n);
      assert ds[..|ds| - 1] == NatDecimal(n / 10);
    }
  }

  /** A natural number's text, then anything that is not a digit, reads as that number. */
  lemma ParseDigitsOfDecimal(m: nat, rest: string)
    requires rest == [] || !IsDigit(rest[0])
    ensures ParseDigits(NatDecimal(m) + rest) == Parsed(m)
  {
    LeadingDigitsThen(NatDecimal(m), rest);
    DigitsValueOfDecimal(m);
  }

  /** Text whose first character is neither white space nor a sign has nothing to skip. */
  lemma ParseIntUnsigned(t: string)
    requires t != [] && !Strings.IsSpace(t[0]) && t[0] != '-' && t[0] != '+'
    ensures ParseIntText(t) == ParseDigits(t)
  {
    assert Strings.TrimStart(t) == t;
  }

  /** A minus sign, then `u`: the negation of what `u` reads as. */
  lemma ParseIntMinus(u: string)
    ensures ParseIntText("-" + u) == Negated(ParseDigits(u))
  {
    var t := "-" + u;
    assert t[0] == '-' && t[1..] == u;
    assert Strings.TrimStart(t) == t;
  }

  lemma Regroup(a: string, b: string, c: string)
    ensures (a + b) + c == a + (b + c)
  {
  }

  /** The text of an integer parses back to it, whatever follows that is not a digit. */
  lemma ParseIntDecimalThen(n: int, rest: string)
    requires rest == [] || !IsDigit(rest[0])
    ensures ParseIntText(Decimal(n) + rest) == Parsed(n)
  {
    if n < 0 {
      var ds := NatDecimal(-n);
      assert Decimal(n) == "-" + ds;
      Regroup("-", ds, rest);
      ParseIntMinus(ds + rest);
      ParseDigitsOfDecimal(-n, rest);
    } else {
      var t := NatDecimal(n) + rest;
      assert t[0] == NatDecimal(n)[0];
      ParseIntUnsigned(t);
      ParseDigitsOfDecimal(n, rest);
    }
  }

  /** The text of an integer parses back to it, and so does the number itself. */
  lemma ParseIntDecimal(n: int)
    ensures ParseIntText(Decimal(n)) == Parsed(n)
    ensures ParseInt(Num(n)) == Parsed(n)
  {
    ParseIntDecimalThen(n, []);
    assert Decimal(n) + [] == Decimal(n);
  }
}
