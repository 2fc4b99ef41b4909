/**
 * How the results screen shows `adeudos`: a `when` over the dynamic type of
 * the field that yields a text and a colour.
 */
module Debt {
  import opened Values

  /** Green `0xFF4CAF50`, red `0xFFE53935` and `Color.Gray`. */
  datatype Colour = Verde | Rojo | Gris

  /** Case folding of one character as the JVM's case-insensitive comparison
      sees it for the letters of "Ninguno": ASCII letters, plus dotless i
      (whose upper case is `I`) and dotted capital I (whose lower case is `i`). */
  function FoldChar(c: char): char {
    if 'A' <= c <= 'Z' then (c as int + 32) as char
    else if c == '\U{0131}' || c == '\U{0130}' then 'i'
    else c
  }

  /** `s.equals("Ninguno", ignoreCase = true)`. */
  predicate IsNinguno(s: string) {
    |s| == 7 && forall i | 0 <= i < 7 :: FoldChar(s[i]) == "ninguno"[i]
  }

  /** The value means "no debt": the word "Ninguno" in any case, exactly "0",
      or a number that is not positive. */
  predicate NoDebt(d: Dyn) {
    match d
    case DStr(s) => IsNinguno(s) || s == "0"
    case DNum(n) => n <= 0
    case _ => false
  }

  /** The (text, colour) pair shown for `adeudos`. A debt is shown as `"$ "`
      followed by the value's own text; "no debt" is green; a null or a value
      that is neither a string nor a number is the grey "N/A". */
  function DebtDisplay(a: Dyn): (r: (string, Colour))
    ensures r.1 == Verde <==> NoDebt(a)
    ensures r.1 == Gris <==> a.DNull? || a.DOther?
    ensures r.1 == Verde <==> r.0 == "Sin Adeudo"
    ensures r.1 == Gris <==> r.0 == "N/A"
    ensures r.1 == Rojo ==> |r.0| >= 2 && r.0[..2] == "$ " && r.0[2..] == ToText(a)
  {
    match a
    case DStr(s) =>
      if IsNinguno(s) || s == "0" then ("Sin Adeudo", Verde) else Amount(s)
    case DNum(n) =>
      if n > 0 then Amount(IntToString(n)) else ("Sin Adeudo", Verde)
    case _ => ("N/A", Gris)
  }

  /** The template `"$ $a"` for an amount owed, in red. */
  function Amount(text: string): (r: (string, Colour))
    ensures r.1 == Rojo && |r.0| >= 2 && r.0[..2] == "$ " && r.0[2..] == text
    ensures r.0 != "Sin Adeudo" && r.0 != "N/A"
  {
    var t := "$ " + text;
    assert t[0] == '$';
    (t, Rojo)
  }

  /** The rows of the debt table, one case each. */
  lemma DebtExamples()
    ensures DebtDisplay(DStr("NINGUNO")) == ("Sin Adeudo", Verde)
    ensures DebtDisplay(DStr("0")) == ("Sin Adeudo", Verde)
    ensures DebtDisplay(DStr("")) == ("$ ", Rojo)
    ensures DebtDisplay(DStr("1500")) == ("$ 1500", Rojo)
    ensures DebtDisplay(DNum(500)) == ("$ 500", Rojo)
    ensures DebtDisplay(DNum(0)) == ("Sin Adeudo", Verde)
    ensures DebtDisplay(DNum(-3)) == ("Sin Adeudo", Verde)
    ensures DebtDisplay(DNull) == ("N/A", Gris)
  {
    assert IsNinguno("NINGUNO");
    assert !IsNinguno("1500");
    assert "$ " + "" == "$ ";
    assert "$ " + "1500" == "$ 1500";
    assert "$ " + "500" == "$ 500";
    assert NatToString(500) == "500" by {
      assert NatToString(5) == "5";
      assert NatToString(50) == "50";
    }
  }
}
