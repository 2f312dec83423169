/** Small shared vocabulary: optional values and the provider's scalar values. */
module Prelude {

  datatype Option<+T> = None | Some(value: T) {
    function GetOr(default: T): T {
      match this
      case None => default
      case Some(v) => v
    }
  }

  /** A scalar as a provider payload carries it: missing, a number or a text. */
  datatype Scalar = Missing | Number(n: int) | Text(s: string)

  /** Python truthiness of a scalar. */
  predicate Truthy(v: Scalar) {
    match v
    case Missing => false
    case Number(n) => n != 0
    case Text(s) => s != ""
  }

  /** `a or b` */
  function Or(a: Scalar, b: Scalar): Scalar {
    if Truthy(a) then a else b
  }

  function Digit(d: nat): char
    requires d < 10
  {
    "0123456789"[d]
  }

  function Decimal(n: int): string
    decreases n < 0, if n < 0 then -n else n
  {
    if n < 0 then "-" + Decimal(-n)
    else if n < 10 then [Digit(n)]
    else Decimal(n / 10) + [Digit(n % 10)]
  }

  function DigitValue(c: char): nat {
    if '0' <= c <= '9' then (c - '0') as nat else 0
  }

  /** What a run of digits stands for. */
  function ValueOf(digits: string): nat {
    if digits == "" then 0
    else 10 * ValueOf(digits[..|digits| - 1]) + DigitValue(digits[|digits| - 1])
  }

  lemma DigitDenotes(d: nat)
    requires d < 10
    ensures '0' <= Digit(d) <= '9' && DigitValue(Digit(d)) == d
    ensures d > 0 ==> Digit(d) != '0'
  {
  }

  lemma ValueAppend(digits: string, c: char)
    ensures ValueOf(digits + [c]) == 10 * ValueOf(digits) + DigitValue(c)
  {
    assert (digits + [c])[..|digits|] == digits;
  }

  /** The text of a number: its digits without a leading zero, after a minus sign if it is negative. */
  lemma {:induction false} DecimalIsText(n: int)
    ensures n < 0 ==> Decimal(n) == "-" + Decimal(-n)
    ensures n >= 0 ==> Decimal(n) != "" && ValueOf(Decimal(n)) == n
    ensures n >= 0 ==> forall c :: c in Decimal(n) ==> '0' <= c <= '9'
    ensures n > 0 ==> Decimal(n)[0] != '0'
    decreases n < 0, if n < 0 then -n else n
  {
    if n < 0 {
      DecimalIsText(-n);
    } else if n < 10 {
      DigitDenotes(n);
      ValueAppend("", Digit(n));
      assert "" + [Digit(n)] == [Digit(n)];
    } else {
      DecimalIsText(n / 10);
      DigitDenotes(n % 10);
      ValueAppend(Decimal(n / 10), Digit(n % 10));
      hide Digit, DigitValue, ValueOf;
    }
  }

  /** `str(v)` */
  function Render(v: Scalar): string {
    match v
    case Missing => "None"
    case Number(n) => Decimal(n)
    case Text(s) => s
  }

  function Last<T>(s: seq<T>): T
    requires s != []
  {
    s[|s| - 1]
  }

  function Front<T>(s: seq<T>): seq<T>
    requires s != []
  {
    s[..|s| - 1]
  }
}
