/**
 * The values a caller may pass in the data payload of a translate call, with
 * the three JavaScript coercions the translate function applies to them:
 * truthiness (the `||` fallback), conversion to a string (the template
 * literal) and conversion to a number (the relational comparisons on `n`).
 */
module DataValues {
  import opened Wrappers

  /** A payload value. Numbers are integers; see README for what is left out. */
  datatype Value = Undefined | Null | Bool(b: bool) | Num(i: int) | Str(s: string)

  /** The data payload: placeholder names to values. */
  type Data = map<string, Value>

  /** `data[key]`: a property that is not there reads as `undefined`. */
  function Get(data: Data, key: string): Value
  {
    if key in data then data[key] else Undefined
  }

  predicate IsDigit(c: char)
  {
    '0' <= c <= '9'
  }

  predicate AllDigits(s: string)
  {
    forall i :: 0 <= i < |s| ==> IsDigit(s[i])
  }

  function DigitChar(d: nat): (c: char)
    requires d < 10
    ensures IsDigit(c) && c as int - '0' as int == d
  {
    ('0' as int + d) as char
  }

  function DigitValue(c: char): (d: nat)
    requires IsDigit(c)
    ensures d < 10 && DigitChar(d) == c
  {
    c as int - '0' as int
  }

  /** The decimal digits of `n`, most significant first, without leading zeros. */
  function NatToDecimal(n: nat): (r: string)
    ensures |r| > 0 && AllDigits(r)
    ensures |r| > 1 ==> r[0] != '0'
    decreases n
  {
    if n < 10 then [DigitChar(n)] else NatToDecimal(n / 10) + [DigitChar(n % 10)]
  }

  /** The number a non-empty run of decimal digits denotes. */
  function DecimalValue(s: string): nat
    requires AllDigits(s)
    decreases |s|
  {
    if |s| == 0 then 0 else DecimalValue(s[..|s| - 1]) * 10 + DigitValue(s[|s| - 1])
  }

  /** `String(i)` for an integer number. */
  function IntToDecimal(i: int): string
  {
    if i < 0 then "-" + NatToDecimal(-i) else NatToDecimal(i)
  }

  /**
   * `Number(s)` for the strings this model gives a meaning to: the empty
   * string is 0, an optionally negative run of decimal digits its value;
   * every other string is NaN (None).
   */
  function StringToNumber(s: string): Option<int>
  {
    if s == "" then Some(0)
    else if AllDigits(s) then Some(DecimalValue(s))
    else if s[0] == '-' && |s| > 1 && AllDigits(s[1..]) then Some(-(DecimalValue(s[1..]) as int))
    else None
  }

  /** A leading zero does not change the number a run of digits denotes. */
  lemma {:induction false} DecimalLeadingZero(s: string)
    requires AllDigits(s)
    ensures AllDigits("0" + s) && DecimalValue("0" + s) == DecimalValue(s)
    decreases |s|
  {
    var t := "0" + s;
    assert AllDigits(t) by {
      forall i | 0 <= i < |t| ensures IsDigit(t[i]) {
        if i > 0 { assert t[i] == s[i - 1]; }
      }
    }
    if |s| > 0 {
      assert t[..|t| - 1] == "0" + s[..|s| - 1];
      assert t[|t| - 1] == s[|s| - 1];
      DecimalLeadingZero(s[..|s| - 1]);
    } else {
      assert t[..|t| - 1] == "";
    }
  }

  /** `Number("0" + s)` is `Number(s)` for a run of digits: `Number("007")` is 7 and `Number("0")` is `Number("")`. */
  lemma LeadingZeroNumber(s: string)
    requires AllDigits(s)
    ensures StringToNumber("0" + s) == StringToNumber(s)
  {
    DecimalLeadingZero(s);
  }

  /** The decimal text of a natural number reads back as that number. */
  lemma {:induction false} DecimalRoundTrip(n: nat)
    ensures DecimalValue(NatToDecimal(n)) == n
    decreases n
  {
    if n >= 10 {
      var r := NatToDecimal(n);
      assert r[..|r| - 1] == NatToDecimal(n / 10);
      DecimalRoundTrip(n / 10);
    }
  }

  /** `Number(String(i)) === i` for every integer i. */
  lemma IntRoundTrip(i: int)
    ensures StringToNumber(IntToDecimal(i)) == Some(i)
  {
    if i < 0 {
      var r := IntToDecimal(i);
      assert r[1..] == NatToDecimal(-i);
      assert !IsDigit(r[0]);
      DecimalRoundTrip(-i);
    } else {
      DecimalRoundTrip(i);
    }
  }

  /** JavaScript truthiness: `undefined`, `null`, `false`, 0 and "" are falsy. */
  function Truthy(v: Value): (b: bool)
    ensures !b <==> v == Undefined || v == Null || v == Bool(false) || v == Num(0) || v == Str("")
  {
    match v
    case Undefined => false
    case Null => false
    case Bool(b) => b
    case Num(i) => i != 0
    case Str(s) => s != ""
  }

  /** `String(v)`: what a template literal `${v}` produces. */
  function ToStr(v: Value): (r: string)
    ensures v.Str? ==> r == v.s
    ensures v.Num? ==> StringToNumber(r) == Some(v.i)
  {
    match v
    case Undefined => "undefined"
    case Null => "null"
    case Bool(b) => if b then "true" else "false"
    case Num(i) => IntRoundTrip(i); IntToDecimal(i)
    case Str(s) => s
  }

  /**
   * `${v || ""}`: the text a placeholder is replaced by. It is empty exactly
   * when the value is missing or falsy; otherwise it is the value's string.
   */
  function Substitution(v: Value): (r: string)
    ensures r == "" <==> !Truthy(v)
    ensures Truthy(v) ==> r == ToStr(v)
  {
    if Truthy(v) then ToStr(v) else ""
  }

  /** `ToNumber(v)`, with None for NaN. */
  function ToNumber(v: Value): Option<int>
  {
    match v
    case Undefined => None
    case Null => Some(0)
    case Bool(b) => Some(if b then 1 else 0)
    case Num(i) => Some(i)
    case Str(s) => StringToNumber(s)
  }

  /**
   * `n > 1 || n < 1`: true exactly when `n` converts to a number other
   * than one; NaN (an absent `n`) compares false both ways.
   */
  function PluralCue(n: Value): (b: bool)
    ensures b <==> ToNumber(n).Some? && ToNumber(n).value != 1
  {
    var x := ToNumber(n);
    x.Some? && (x.value > 1 || x.value < 1)
  }

  /**
   * A value printed and read back as a number is the value as a number,
   * except `null` and the booleans: their text ("null", "true", "false")
   * is NaN, while they themselves convert to 0 and 1.
   */
  lemma ToNumberOfPrinted(v: Value)
    ensures !v.Null? && !v.Bool? ==> ToNumber(Str(ToStr(v))) == ToNumber(v)
    ensures v.Null? || v.Bool? ==> ToNumber(Str(ToStr(v))) == None && ToNumber(v).Some?
  {
    match v
    case Undefined => NotNumeric("undefined");
    case Null => NotNumeric("null");
    case Bool(b) => NotNumeric("true"); NotNumeric("false");
    case Num(i) =>
    case Str(s) =>
  }

  /** A text that starts with a letter is NaN. */
  lemma NotNumeric(s: string)
    requires |s| > 0 && 'a' <= s[0] <= 'z'
    ensures StringToNumber(s) == None
  {
  }

  /** An entry that is not in the payload is replaced by the empty string. */
  lemma MissingReadsEmpty(data: Data, key: string)
    requires key !in data
    ensures Get(data, key) == Undefined && Substitution(Get(data, key)) == ""
  {
  }

  /** The plural cue holds exactly for counts other than one, zero and negatives included. */
  lemma PluralCueOfNumber(i: int)
    ensures PluralCue(Num(i)) <==> i != 1
  {
  }

  /** A count given as its decimal string cues the plural exactly as the number does. */
  lemma PluralCueOfNumericString(i: int)
    ensures PluralCue(Str(IntToDecimal(i))) <==> PluralCue(Num(i))
  {
    IntRoundTrip(i);
  }
}
