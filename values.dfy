/** The document values the remediation job looks at, and the text
    renderings it relies on: decimal numerals and the `\s` class of the
    regular expressions it sends to the store. */
module Values {

  datatype Option<+T> = None | Some(value: T)

  /** A BSON field value, restricted to the kinds this job distinguishes.
      `Missing` is an absent field, which the store treats differently
      from an explicit `Null`. */
  datatype Value = Missing | Null | Str(s: string) | Int(n: int) | Bool(b: bool)

  /** The three fields of a job document that the job reads or writes. */
  datatype Field = NumSearch | JobId | ClientCode

  /** A job document: its `_id` (as the text it renders to in a log line)
      and the three fields of interest. Other fields are never read nor
      written and are not modelled. */
  datatype Record = Record(id: string, jobId: Value, clientCode: Value, numSearch: Value)
  {
    function Get(f: Field): Value
    {
      match f
      case NumSearch => numSearch
      case JobId => jobId
      case ClientCode => clientCode
    }

    /** The document with field `f` replaced by `v`; setting `Missing`
        removes the field. */
    function Set(f: Field, v: Value): (r: Record)
      ensures r.id == id
      ensures r.Get(f) == v
      ensures forall g :: g != f ==> r.Get(g) == Get(g)
    {
      match f
      case NumSearch => this.(numSearch := v)
      case JobId => this.(jobId := v)
      case ClientCode => this.(clientCode := v)
    }
  }

  predicate IsDigit(c: char)
  {
    '0' <= c <= '9'
  }

  /** Every character belongs to the class `\d` (ASCII digits). */
  predicate AllDigits(s: string)
  {
    forall i :: 0 <= i < |s| ==> IsDigit(s[i])
  }

  /** The class `\s` of the store's regular expressions: space, tab,
      line feed, vertical tab, form feed and carriage return. */
  predicate IsSpace(c: char)
  {
    c == ' ' || c == '\t' || c == '\n' || c == '\U{000B}' || c == '\U{000C}' || c == '\r'
  }

  /** The language of `/^\s*$/`: empty or whitespace-only text. */
  predicate IsBlank(s: string)
  {
    forall i :: 0 <= i < |s| ==> IsSpace(s[i])
  }

  function DigitChar(d: nat): (c: char)
    requires d < 10
    ensures IsDigit(c) && c as int - '0' as int == d
  {
    ('0' as int + d) as char
  }

  /** The decimal numeral of a natural number, as `$toString` and
      JavaScript template strings render it: no sign, no leading zero. */
  function NatToDecimal(n: nat): (s: string)
    ensures |s| > 0 && AllDigits(s)
    ensures s[0] == '0' ==> n == 0
    decreases n
  {
    if n < 10 then [DigitChar(n)] else NatToDecimal(n / 10) + [DigitChar(n % 10)]
  }

  /** The decimal numeral of an integer: a minus sign before a negative one. */
  function IntToDecimal(n: int): (s: string)
    ensures AllDigits(s) <==> n >= 0
    ensures |s| > 0
  {
    if n < 0 then
      var s := "-" + NatToDecimal(-n);
      assert !IsDigit(s[0]);
      s
    else NatToDecimal(n)
  }

  /** The number a string of decimal digits denotes; the reading side of
      `NatToDecimal`. */
  function DigitsValue(s: string): nat
    requires AllDigits(s)
    decreases |s|
  {
    if s == [] then 0 else DigitsValue(s[..|s| - 1]) * 10 + (s[|s| - 1] as int - '0' as int)
  }

  /** Rendering a number and reading the digits back gives the number. */
  lemma {:induction false} DecimalRoundTrip(n: nat)
    ensures DigitsValue(NatToDecimal(n)) == n
    decreases n
  {
    if n >= 10 {
      var s := NatToDecimal(n);
      assert s[..|s| - 1] == NatToDecimal(n / 10);
      DecimalRoundTrip(n / 10);
    }
  }
}
