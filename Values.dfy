/**
 * Firestore fields declared `Any?` (`año`, `adeudos`): a string, a whole
 * number (Firestore's `Long`), null, or a value of another type. `ToText`
 * is Kotlin's `toString()` / string template on such a value.
 */
module Values {

  datatype Dyn = DStr(s: string) | DNum(n: int) | DNull | DOther(text: string)

  predicate IsDigit(c: char) {
    '0' <= c <= '9'
  }

  predicate AllDigits(s: string) {
    forall i | 0 <= i < |s| :: IsDigit(s[i])
  }

  function DigitChar(d: nat): (c: char)
    requires d < 10
    ensures IsDigit(c) && c as int - '0' as int == d
  {
    "0123456789"[d]
  }

  /** Decimal digits of a natural number, most significant first, no leading zero. */
  function NatToString(n: nat): (r: string)
    ensures |r| >= 1 && AllDigits(r)
    ensures r[0] == '0' ==> n == 0
  {
    if n < 10 then [DigitChar(n)] else NatToString(n / 10) + [DigitChar(n % 10)]
  }

  /** `Long.toString()`: a minus sign before the digits of a negative number. */
  function IntToString(i: int): string {
    if i < 0 then "-" + NatToString(-i) else NatToString(i)
  }

  /** Reads decimal digits back (the inverse used to state the round trip). */
  function ParseNat(s: string): nat
    requires AllDigits(s)
  {
    if s == [] then 0 else ParseNat(s[..|s| - 1]) * 10 + (s[|s| - 1] as int - '0' as int)
  }

  function ParseInt(s: string): int
    requires |s| >= 1 && (s[0] == '-' ==> AllDigits(s[1..])) && (s[0] != '-' ==> AllDigits(s))
  {
    if s[0] == '-' then 0 - (ParseNat(s[1..]) as int) else ParseNat(s)
  }

  lemma {:induction false} NatToStringRoundTrip(n: nat)
    ensures ParseNat(NatToString(n)) == n
  {
    if n >= 10 {
      var r := NatToString(n);
      assert r[..|r| - 1] == NatToString(n / 10);
      NatToStringRoundTrip(n / 10);
    }
  }

  /** The text of a number reads back as that number. */
  lemma IntToStringRoundTrip(i: int)
    ensures var r := IntToString(i);
      |r| >= 1 && (r[0] == '-' ==> AllDigits(r[1..])) && (r[0] != '-' ==> AllDigits(r)) &&
      ParseInt(r) == i
  {
    var r := IntToString(i);
    if i < 0 {
      assert r[1..] == NatToString(-i);
      NatToStringRoundTrip(-i);
    } else {
      NatToStringRoundTrip(i);
    }
  }

  /** `toString()` of a field value (`"null"` for null). */
  function ToText(d: Dyn): string {
    match d
    case DStr(s) => s
    case DNum(n) => IntToString(n)
    case DNull => "null"
    case DOther(t) => t
  }
}
