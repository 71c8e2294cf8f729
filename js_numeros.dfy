/**
 * The two JavaScript number operations the purchase-order script uses, over exact decimals:
 * `parseFloat(text)`, which reads the longest decimal literal at the start of the text, and
 * `x.toFixed(2)`, which writes a number with exactly two fractional digits, rounding a tie
 * away from zero.
 */
module JsNumeros {
  import opened Base
  import opened PyText
  import opened Decimales

  /** JavaScript's white space and line terminators, the characters `parseFloat` skips. */
  predicate IsJsSpace(c: char)
  {
    c == '\t' || c == '\n' || c == '\U{0B}' || c == '\U{0C}' || c == '\r' || c == ' ' || c == '\U{A0}'
    || c == '\U{1680}' || ('\U{2000}' <= c <= '\U{200A}') || c == '\U{2028}' || c == '\U{2029}'
    || c == '\U{202F}' || c == '\U{205F}' || c == '\U{3000}' || c == '\U{FEFF}'
  }

  /** The text after its leading JavaScript white space. */
  function TrimStart(s: string): (r: string)
    ensures r != [] ==> !IsJsSpace(r[0])
  {
    if s != [] && IsJsSpace(s[0]) then TrimStart(s[1..]) else s
  }

  /** `parseFloat(s)`: None stands for NaN, when no digits start the text. */
  function ParseFloat(s: string): (r: Option<Decimal>)
  {
    var t := TrimStart(s);
    if t != [] && t[0] == '-' then Negado(Literal(t, 1))
    else if t != [] && t[0] == '+' then Literal(t, 1)
    else Literal(t, 0)
  }

  function Negado(d: Option<Decimal>): Option<Decimal>
  {
    match d
    case None => None
    case Some(x) => Some(Decimal(-x.coef, x.exp))
  }

  /**
   * The longest `digits [. digits] [(e|E) [+|-] digits]` at `i`, with at least one digit
   * before or after the point; an exponent marker without digits is not part of it.
   */
  function Literal(t: string, i: nat): Option<Decimal>
    requires i <= |t|
  {
    var a := DigitRunEnd(t, i);
    var b0 := if a < |t| && t[a] == '.' then a + 1 else a;
    var b := DigitRunEnd(t, b0);
    if a == i && b == b0 then None
    else
      var frac := t[b0..b];
      Some(Decimal(DigitsValue(t[i..a] + frac), Exponente(t, b) - |frac|))
  }

  /** The exponent written at `b`, or 0 when none is. */
  function Exponente(t: string, b: nat): int
    requires b <= |t|
  {
    if b < |t| && (t[b] == 'e' || t[b] == 'E') then
      var j := if b + 1 < |t| && (t[b + 1] == '+' || t[b + 1] == '-') then b + 2 else b + 1;
      var m := DigitRunEnd(t, j);
      if m == j then 0
      else if t[b + 1] == '-' then -(DigitsValue(t[j..m]) as int)
      else DigitsValue(t[j..m])
    else 0
  }

  /** `parseFloat(s) || 0`: NaN becomes 0. */
  function Numero(s: string): Decimal
  {
    match ParseFloat(s)
    case None => Decimal(0, 0)
    case Some(d) => d
  }

  /** The exact product of two decimals. */
  function Producto(a: Decimal, b: Decimal): (r: Decimal)
    ensures r.coef == a.coef * b.coef && r.exp == a.exp + b.exp
  {
    Decimal(a.coef * b.coef, a.exp + b.exp)
  }

  /**
   * `x.toFixed(2)`: '-' when `x` is negative (even if it rounds to zero), the integer part,
   * '.', and the two digits of the hundredths, rounded half up on the magnitude.
   */
  function Fixed2(x: Decimal): (r: string)
  {
    var q := Abs(Quantize(x, -2).coef);
    (if x.coef < 0 then "-" else "") + Centesimos(q)
  }

  // ---------------------------------------------------------------------------------------
  // Properties

  /** A product with a non-negative factor `p` has the sign of the other factor. */
  lemma ProductoSigno(c: int, p: nat)
    ensures c >= 0 ==> c * p >= 0
    ensures c < 0 ==> c * p <= 0
  {
    if c < 0 {
      var a: nat := -c;
      assert c * p == -(a * p);
    }
  }

  /** Rounding to hundredths keeps the sign of the coefficient, or gives zero. */
  lemma QuantizeSigno(x: Decimal)
    ensures x.coef >= 0 ==> Quantize(x, -2).coef >= 0
    ensures x.coef < 0 ==> Quantize(x, -2).coef <= 0
  {
    if x.exp >= -2 {
      ProductoSigno(x.coef, Pow10(x.exp + 2));
    } else {
      MitadArribaCerca(x.coef, Pow10(-2 - x.exp));
    }
  }

  /** One more digit multiplies the value by 10 and adds its own. */
  lemma UnDigitoMas(a: string, c: char)
    requires AllDigits(a) && IsDigit(c)
    ensures AllDigits(a + [c]) && DigitsValue(a + [c]) == DigitsValue(a) * 10 + DigitValue(c)
  {
    assert (a + [c])[..|a|] == a;
  }

  /** Two more digits multiply the value by 100 and add theirs. */
  lemma DosDigitos(a: string, b: string)
    requires AllDigits(a) && AllDigits(b) && |b| == 2
    ensures AllDigits(a + b) && DigitsValue(a + b) == DigitsValue(a) * 100 + DigitsValue(b)
  {
    assert IsDigit(b[0]) && IsDigit(b[1]);
    UnDigitoMas(a, b[0]);
    UnDigitoMas(a + [b[0]], b[1]);
    assert a + b == a + [b[0]] + [b[1]];
    UnDigitoMas([], b[0]);
    assert [] + [b[0]] == [b[0]];
    UnDigitoMas([b[0]], b[1]);
    assert [b[0]] + [b[1]] == b;
  }

  /** The hundredths are written with exactly two digits. */
  lemma CentesimosDosDigitos(n: nat)
    requires n < 100
    ensures |ZeroPad(n, 2)| == 2 && AllDigits(ZeroPad(n, 2)) && DigitsValue(ZeroPad(n, 2)) == n
  {
    ZeroPadShape(n, 2);
    if n >= 10 {
      assert NatToString(n) == NatToString(n / 10) + [DigitChar(n % 10)];
    }
  }

  /** In `a + "." + b` at `i`, the integer digits end at the point. */
  lemma RunEntero(t: string, i: nat, a: string, b: string)
    requires AllDigits(a) && i <= |t| && t[i..] == a + "." + b
    ensures i + |a| < |t| && t[i + |a|] == '.' && |t| == i + |a| + 1 + |b|
    ensures DigitRunEnd(t, i) == i + |a| && t[i..i + |a|] == a
  {
    var p := i + |a|;
    assert t[i..][|a|] == '.';
    forall k | i <= k < p ensures IsDigit(t[k]) {
      assert t[k] == t[i..][k - i] == a[k - i];
    }
    DigitRunEndAt(t, i, p);
    assert t[i..p] == t[i..][..|a|];
  }

  /** ... and the fraction's digits run from after the point to the end. */
  lemma RunFraccion(t: string, i: nat, a: string, b: string)
    requires AllDigits(b) && i + |a| < |t| && t[i..] == a + "." + b
    ensures DigitRunEnd(t, i + |a| + 1) == |t| && t[i + |a| + 1..|t|] == b
  {
    var p := i + |a|;
    assert |t| == p + 1 + |b|;
    forall k | p + 1 <= k < |t| ensures IsDigit(t[k]) {
      assert t[k] == t[i..][k - i] == b[k - p - 1];
    }
    assert t[p + 1..|t|] == t[i..][|a| + 1..];
  }

  /** In `a + "." + b` at `i`, the integer digits end at the point and the fraction at the end. */
  lemma RunsCentesimos(t: string, i: nat, a: string, b: string)
    requires AllDigits(a) && AllDigits(b) && i <= |t| && t[i..] == a + "." + b
    ensures i + |a| < |t| && t[i + |a|] == '.' && |t| == i + |a| + 1 + |b|
    ensures DigitRunEnd(t, i) == i + |a| && DigitRunEnd(t, i + |a| + 1) == |t|
    ensures t[i..i + |a|] == a && t[i + |a| + 1..|t|] == b
  {
    RunEntero(t, i, a, b);
    RunFraccion(t, i, a, b);
  }

  /** Reading `digits . two-digits` gives the number they spell with exponent -2. */
  lemma LiteralCentesimos(t: string, i: nat, a: string, b: string)
    requires AllDigits(a) && AllDigits(b) && |b| == 2 && i <= |t| && t[i..] == a + "." + b
    ensures Literal(t, i) == Some(Decimal(DigitsValue(a) * 100 + DigitsValue(b), -2))
  {
    RunsCentesimos(t, i, a, b);
    DosDigitos(a, b);
  }

  /** The text `q / 100 . q % 100` of a number of hundredths `q`. */
  function Centesimos(q: nat): string
  {
    NatToString(q / 100) + "." + ZeroPad(q % 100, 2)
  }

  /** Reading back the hundredths text gives `q` hundredths. */
  lemma LiteralDeCentesimos(t: string, i: nat, q: nat)
    requires i <= |t| && t[i..] == Centesimos(q)
    ensures t[i] != '-' && t[i] != '+' && !IsJsSpace(t[i])
    ensures Literal(t, i) == Some(Decimal(q, -2))
  {
    var a, b := NatToString(q / 100), ZeroPad(q % 100, 2);
    assert t[i..][0] == a[0];
    CentesimosDosDigitos(q % 100);
    NatToStringValue(q / 100);
    assert (q / 100) * 100 + q % 100 == q;
    LiteralCentesimos(t, i, a, b);
  }

  /** The text of `q` hundredths reads back as `q` hundredths. */
  lemma ParseFloatCentesimos(q: nat)
    ensures ParseFloat(Centesimos(q)) == Some(Decimal(q, -2))
  {
    var u := Centesimos(q);
    LiteralDeCentesimos(u, 0, q);
    assert u[0..] == u;
    assert TrimStart(u) == u;
  }

  /** With a '-' in front it reads back negated. */
  lemma ParseFloatMenosCentesimos(q: nat)
    ensures ParseFloat("-" + Centesimos(q)) == Some(Decimal(-(q as int), -2))
  {
    var t := "-" + Centesimos(q);
    assert t[1..] == Centesimos(q);
    LiteralDeCentesimos(t, 1, q);
    assert TrimStart(t) == t;
  }

  /**
   * `parseFloat(x.toFixed(2))` is `x` rounded to hundredths: the subtotal written into a row
   * reads back as the rounded product.
   */
  lemma ParseFloatFixed2(x: Decimal)
    ensures ParseFloat(Fixed2(x)) == Some(Quantize(x, -2))
  {
    var y := Quantize(x, -2);
    var q := Abs(y.coef);
    QuantizeSigno(x);
    if x.coef < 0 {
      assert Fixed2(x) == "-" + Centesimos(q);
      ParseFloatMenosCentesimos(q);
      assert y == Decimal(-(q as int), -2);
    } else {
      assert Fixed2(x) == Centesimos(q);
      ParseFloatCentesimos(q);
      assert y == Decimal(q, -2);
    }
  }

  /** `toFixed(2)` always ends in '.' and two digits. */
  lemma Fixed2Forma(x: Decimal)
    ensures var r := Fixed2(x);
      |r| >= 4 && r[|r| - 3] == '.' && IsDigit(r[|r| - 2]) && IsDigit(r[|r| - 1])
      && (r[0] == '-' <==> x.coef < 0)
  {
    var q := Abs(Quantize(x, -2).coef);
    CentesimosDosDigitos(q % 100);
  }

  /** Text with no leading digits, such as "" or "abc", is NaN, so it counts as 0. */
  lemma NumeroSinDigitos()
    ensures Numero("") == Decimal(0, 0) && Numero("abc") == Decimal(0, 0)
  {
    assert !IsJsSpace('a') && !IsDigit('a');
    assert TrimStart("abc") == "abc";
  }

  /**
   * Only JavaScript's white space is skipped: a byte-order mark is, an information separator
   * (which Python's `strip()` would remove) is not, so that text is NaN and counts as 0.
   */
  lemma ParseFloatEspacios()
    ensures ParseFloat("\U{FEFF}5") == Some(Decimal(5, 0))
    ensures ParseFloat("\U{1C}5") == None && Numero("\U{1C}5") == Decimal(0, 0)
  {
    var t := "5";
    assert TrimStart("\U{FEFF}5") == t by {
      assert "\U{FEFF}5"[1..] == t;
    }
    assert DigitRunEnd(t, 1) == 1 && DigitRunEnd(t, 0) == 1;
    assert t[0..1] == "5" && t[1..1] == "" && "5" + "" == "5" && "5"[..0] == "";
    assert Exponente(t, 1) == 0;
    assert !IsJsSpace('\U{1C}') && !IsDigit('\U{1C}');
    assert TrimStart("\U{1C}5") == "\U{1C}5";
    assert DigitRunEnd("\U{1C}5", 0) == 0;
  }

  /** A number followed by other text reads as the number. */
  lemma ParseFloatPrefijo()
    ensures ParseFloat("12abc") == Some(Decimal(12, 0))
  {
    var t := "12abc";
    assert TrimStart(t) == t;
    assert DigitRunEnd(t, 2) == 2;
    assert DigitRunEnd(t, 0) == 2;
    assert t[0..2] == "12" && t[2..2] == "";
    assert "12" + "" == "12" && "12"[..1] == "1" && "1"[..0] == "";
    assert DigitsValue("12") == 12;
    assert Exponente(t, 2) == 0;
  }

  /** Leading blanks are skipped and a '-' negates what follows. */
  lemma ParseFloatNegativo()
    ensures ParseFloat(" -0.5") == Some(Decimal(-5, -1))
  {
    var t := "-0.5";
    assert TrimStart(" -0.5") == t;
    assert t[1..] == "0" + "." + "5";
    RunsCentesimos(t, 1, "0", "5");
    UnDigitoMas("0", '5');
    assert "0" + ['5'] == "05" && "0"[..0] == "";
    assert Exponente(t, 4) == 0;
    assert Literal(t, 1) == Some(Decimal(5, -1));
  }
}
