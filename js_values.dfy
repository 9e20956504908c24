/**
 * The JavaScript values that reach a tool handler as call arguments (they
 * arrive as JSON, with `undefined` standing for a missing key), and the three
 * conversions the handlers apply to them: truthiness (`if (!x)`, `Boolean(x)`),
 * `String(x)` and `Number(x)`. JSON numbers are modelled as integers.
 */
module JsValues {
  import opened Outcomes
  import opened Strings

  datatype JsValue =
    | Undefined
    | Null
    | Bool(b: bool)
    | Num(n: int)
    | Str(s: string)
    | Arr(items: seq<JsValue>)
    | Obj(fields: map<string, JsValue>)

  /** The argument bag of a tool call. */
  type Args = map<string, JsValue>

  /** Reading `args.key` (or destructuring it): a missing key reads as undefined. */
  function Get(args: Args, key: string): JsValue
  {
    if key in args then args[key] else Undefined
  }

  /** `arguments || {}` and `arguments ?? {}`: absent arguments are an empty bag. */
  function OrEmpty(arguments: Option<Args>): Args
  {
    match arguments
    case None => map[]
    case Some(a) => a
  }

  /** JavaScript truthiness; `Boolean(v)` is the same function. */
  predicate Truthy(v: JsValue)
  {
    match v
    case Undefined => false
    case Null => false
    case Bool(b) => b
    case Num(n) => n != 0
    case Str(s) => s != ""
    case Arr(_) => true
    case Obj(_) => true
  }

  predicate IsDigits(s: string)
  {
    forall i :: 0 <= i < |s| ==> '0' <= s[i] <= '9'
  }

  function DigitChar(d: nat): char
    requires d < 10
  {
    ['0', '1', '2', '3', '4', '5', '6', '7', '8', '9'][d]
  }

  lemma DigitCharValue(d: nat)
    requires d < 10
    ensures DigitChar(d) as int - '0' as int == d
  {
  }

  /** The decimal digits of a natural number, most significant first, no leading zeros. */
  function NatDigits(n: nat): (s: string)
    ensures |s| >= 1 && IsDigits(s)
    ensures s[0] == '0' <==> n == 0
    ensures s[0] == '0' ==> |s| == 1
  {
    if n < 10 then [DigitChar(n)] else NatDigits(n / 10) + [DigitChar(n % 10)]
  }

  /** The value of a string of decimal digits (leading zeros allowed, as `Number("007")`). */
  function DigitsValue(s: string): nat
    requires IsDigits(s)
  {
    if s == [] then 0
    else DigitsValue(s[..|s| - 1]) * 10 + (s[|s| - 1] as int - '0' as int)
  }

  lemma {:induction false} DigitsValueOfNatDigits(n: nat)
    ensures DigitsValue(NatDigits(n)) == n
  {
    var s := NatDigits(n);
    DigitCharValue(n % 10);
    if n >= 10 {
      DigitsValueOfNatDigits(n / 10);
      assert s[..|s| - 1] == NatDigits(n / 10);
    }
  }

  /**
   * `String(n)` for an integer-valued number: its decimal digits with no
   * leading zero, after a minus sign when it is negative.
   */
  function IntToString(n: int): (s: string)
    ensures n >= 0 ==> IsDigits(s) && DigitsValue(s) == n && |s| >= 1 && (s[0] == '0' ==> |s| == 1)
    ensures n < 0 ==> |s| >= 2 && s[0] == '-' && IsDigits(s[1..]) && DigitsValue(s[1..]) == -n && s[1] != '0'
  {
    var d := NatDigits(if n < 0 then -n else n);
    DigitsValueOfNatDigits(if n < 0 then -n else n);
    if n < 0 then
      assert ("-" + d)[1..] == d;
      "-" + d
    else
      d
  }

  /**
   * `String(v)`. An array is joined with "," with null and undefined elements
   * written as empty strings; a plain object is "[object Object]".
   */
  function ToStr(v: JsValue): string
  {
    match v
    case Undefined => "undefined"
    case Null => "null"
    case Bool(b) => if b then "true" else "false"
    case Num(n) => IntToString(n)
    case Str(s) => s
    case Arr(items) =>
      Join(seq(|items|, i requires 0 <= i < |items| =>
             if items[i].Undefined? || items[i].Null? then "" else ToStr(items[i])), ",")
    case Obj(_) => "[object Object]"
  }

  /**
   * The result of `Number(v)`. `NumberOfText(t)` is `Number(t)` for a string
   * that is neither empty nor an optionally negative run of decimal digits;
   * the model leaves such a value unevaluated (it may be a fraction, a hex
   * literal, an exponent form or NaN).
   */
  datatype JsNumber = Finite(value: int) | NaN | NumberOfText(text: string)

  function StringToNumber(s: string): JsNumber
  {
    if s == "" then Finite(0)
    else if IsDigits(s) then Finite(DigitsValue(s))
    else if |s| > 1 && s[0] == '-' && IsDigits(s[1..]) then Finite(0 - DigitsValue(s[1..]))
    else NumberOfText(s)
  }

  /** `Number(v)`: an array converts through its string form, a plain object to NaN. */
  function ToNumber(v: JsValue): JsNumber
  {
    match v
    case Undefined => NaN
    case Null => Finite(0)
    case Bool(b) => Finite(if b then 1 else 0)
    case Num(n) => Finite(n)
    case Str(s) => StringToNumber(s)
    case Arr(_) => StringToNumber(ToStr(v))
    case Obj(_) => NaN
  }

  /** `Number(String(n)) === n`: the decimal text of an integer reads back as that integer. */
  lemma NumberOfStringOfInt(n: int)
    ensures ToNumber(Str(ToStr(Num(n)))) == Finite(n)
  {
    if n < 0 {
      DigitsValueOfNatDigits(-n);
      var s := ToStr(Num(n));
      assert s[1..] == NatDigits(-n);
      assert !IsDigits(s) by { assert s[0] == '-'; }
    } else {
      DigitsValueOfNatDigits(n);
    }
  }

  /** `v ? String(v) : undefined`: present exactly when the input is truthy. */
  function OptionalString(v: JsValue): (r: Option<string>)
    ensures r.None? <==> !Truthy(v)
    ensures r.Some? ==> r.value == ToStr(v)
  {
    if Truthy(v) then Some(ToStr(v)) else None
  }

  /** `v ? Number(v) : undefined`. */
  function OptionalNumber(v: JsValue): (r: Option<JsNumber>)
    ensures r.None? <==> !Truthy(v)
    ensures r.Some? ==> r.value == ToNumber(v)
  {
    if Truthy(v) then Some(ToNumber(v)) else None
  }

  /** `v ? Boolean(v) : undefined`: the result is never `false`. */
  function OptionalTrue(v: JsValue): (r: Option<bool>)
    ensures r.None? <==> !Truthy(v)
    ensures r != Some(false)
  {
    if Truthy(v) then Some(true) else None
  }

  /** `String(v)` is empty only for the empty string (or an array that joins to nothing). */
  lemma EmptyStringOnlyFromEmpty(v: JsValue)
    requires !v.Arr?
    ensures ToStr(v) == "" <==> v == Str("")
  {
  }

  /** The falsy values are exactly undefined, null, false, 0 and the empty string; every array and object is truthy. */
  lemma FalsyValues(v: JsValue)
    ensures !Truthy(v) <==> v == Undefined || v == Null || v == Bool(false) || v == Num(0) || v == Str("")
    ensures v.Arr? || v.Obj? ==> Truthy(v)
  {
  }

  /** A number that is 0 is falsy, but the string "0" is truthy and converts to 0. */
  lemma ZeroQuirks()
    ensures OptionalNumber(Num(0)) == None
    ensures OptionalNumber(Str("0")) == Some(Finite(0))
  {
    assert IsDigits("0");
  }
}
