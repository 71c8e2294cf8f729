/**
 * `safe_decimal` (ventas/utils.py): any value as a decimal with a fixed number of fractional
 * digits, rounded half up, falling back to 0.00 for None and for text that is not a number.
 */
module SafeDecimal {
  import opened Base
  import opened PyText
  import opened Decimales

  /**
   * The argument: None, a `Decimal`, or any other value, which only enters through its
   * `str()` text (an int `i` is `Texto(str(i))`, a string is itself).
   */
  datatype Valor = Nada | Dec(d: Decimal) | Texto(s: string)

  /** `Decimal('0.00')`, the fallback. */
  const CERO: Decimal := Decimal(0, -2)

  /** The exponent of `Decimal(f'1.{"0" * decimals}')`: a negative count repeats nothing. */
  function Exponente(decimals: int): int
  {
    if decimals > 0 then -decimals else 0
  }

  /** `decimal_value`: a Decimal as it is, anything else through `Decimal(str(value))`. */
  function Convertida(v: Valor): Option<Decimal>
  {
    match v
    case Nada => None
    case Dec(d) => Some(d)
    case Texto(s) => ParseDecimal(s)
  }

  /** `safe_decimal(value, decimals)`. */
  function SafeDecimal(v: Valor, decimals: int): (r: Decimal)
    ensures r == CERO || r.exp == Exponente(decimals)
    ensures v.Nada? ==> r == CERO
  {
    match Convertida(v)
    case None => CERO
    case Some(d) => Quantize(d, Exponente(decimals))
  }

  /** None and text that `Decimal()` refuses give 0.00, whatever `decimals` is. */
  lemma SafeDecimalCero(v: Valor, decimals: int)
    requires v.Nada? || (v.Texto? && ParseDecimal(v.s).None?)
    ensures SafeDecimal(v, decimals) == CERO
  {
  }

  /** The empty string and words such as "abc" are not numbers. */
  lemma SafeDecimalTextoVacio(decimals: int)
    ensures SafeDecimal(Texto(""), decimals) == CERO
    ensures SafeDecimal(Texto("abc"), decimals) == CERO
  {
    ParseDecimalSinDigitos("");
    assert !IsDigit('a') && !IsDigit('b') && !IsDigit('c');
    ParseDecimalSinDigitos("abc");
  }

  /**
   * A value that converts has exactly `decimals` fractional digits (none for a non-positive
   * count); when it has no more digits than that its value is kept, otherwise its coefficient
   * is rounded half up at the weight of the dropped digits, and no other coefficient is nearer.
   */
  lemma SafeDecimalRedondea(v: Valor, decimals: int, c: int)
    requires Convertida(v).Some?
    ensures RedondeoMitadArriba(Convertida(v).value, Exponente(decimals), SafeDecimal(v, decimals), c)
  {
    var d, e := Convertida(v).value, Exponente(decimals);
    assert SafeDecimal(v, decimals) == Quantize(d, e);
    QuantizeCerca(d, e, c);
  }

  /**
   * `r` is `d` quantized half up at exponent `e`: exactly `d` when `d` has no more digits than
   * that, otherwise the coefficient at most half a unit away, ties away from zero, and no other
   * coefficient `c` strictly nearer.
   */
  ghost predicate RedondeoMitadArriba(d: Decimal, e: int, r: Decimal, c: int)
  {
    && r.exp == e
    && (d.exp >= e ==> MismoValor(r, d))
    && (d.exp < e ==>
          var p := Pow10(e - d.exp);
          && 2 * Abs(r.coef * p - d.coef) <= p
          && (2 * Abs(r.coef * p - d.coef) == p ==> Abs(r.coef * p) > Abs(d.coef))
          && (2 * Abs(c * p - d.coef) < p ==> c == r.coef))
  }

  /** `quantize(e)` with ROUND_HALF_UP, on the decimal itself. */
  lemma QuantizeCerca(d: Decimal, e: int, c: int)
    ensures RedondeoMitadArriba(d, e, Quantize(d, e), c)
  {
    if d.exp >= e {
      QuantizeExacto(d, e);
    } else {
      QuantizeRedondea(d, e, c);
    }
  }

  /** "2.345" reads as 2345 x 10^-3. */
  lemma ParseDosComaTres()
    ensures ParseDecimal("2.345") == Some(Decimal(2345, -3))
  {
    var u := "2.345";
    StripNoSpace(u);
    assert IndexOf(u, 'e') == 5 && IndexOf(u, 'E') == 5 && IndexOf(u, '.') == 1;
    assert u[..5] == u && u[..1] == "2" && u[2..] == "345" && "2" + "345" == "2345";
    DigitosDosTres();
    assert ParseConSigno(u) == Some(Decimal(2345, -3));
    ParseDecimalDirecto(u);
  }

  /** "-2.345" reads as -2345 x 10^-3. */
  lemma ParseMenosDosComaTres()
    ensures ParseDecimal("-2.345") == Some(Decimal(-2345, -3))
  {
    ParseMenos("-2.345");
  }

  lemma ParseMenos(t: string)
    requires t == "-2.345"
    ensures ParseDecimal(t) == Some(Decimal(-2345, -3))
  {
    var u := t[1..];
    assert u == "2.345";
    StripNoSpace(u);
    assert IndexOf(u, 'e') == 5 && IndexOf(u, 'E') == 5 && IndexOf(u, '.') == 1;
    assert u[..5] == u && u[..1] == "2" && u[2..] == "345" && "2" + "345" == "2345";
    DigitosDosTres();
    assert ParseSinSigno(u) == Some(Decimal(2345, -3));
    StripNoSpace(t);
    assert ParseConSigno(t) == Some(Decimal(-2345, -3));
    ParseDecimalDirecto(t);
  }

  lemma DigitosDosTres()
    ensures AllDigits("2345") && DigitsValue("2345") == 2345
  {
    var n := "2345";
    assert n[..3] == "234" && "234"[..2] == "23" && "23"[..1] == "2" && "2"[..0] == "";
    assert DigitsValue("2") == 2 && DigitsValue("23") == 23 && DigitsValue("234") == 234;
  }

  /** A tie is rounded away from zero on both sides: 2.345 gives 2.35 and -2.345 gives -2.35. */
  lemma SafeDecimalEmpate()
    ensures SafeDecimal(Texto("2.345"), 2) == Decimal(235, -2)
    ensures SafeDecimal(Texto("-2.345"), 2) == Decimal(-235, -2)
  {
    ParseDosComaTres();
    ParseMenosDosComaTres();
    assert Pow10(1) == 10;
    assert MitadArriba(2345, 10) == 235 && MitadArriba(-2345, 10) == -235;
  }

  /** An integer, through `str()`, keeps its value and gets `decimals` zero digits. */
  lemma SafeDecimalEntero(i: int, decimals: int)
    ensures var r := SafeDecimal(Texto(IntToString(i)), decimals);
      r.exp == Exponente(decimals) && MismoValor(r, Decimal(i, 0))
  {
    ParseDecimalDeEntero(i);
    QuantizeExacto(Decimal(i, 0), Exponente(decimals));
  }

  /**
   * Applying `safe_decimal` to its own result with the same `decimals` gives an equal
   * Decimal (Python's `==`), and the very same one unless the first call fell back to 0.00
   * with a `decimals` other than 2.
   */
  lemma SafeDecimalIdempotente(v: Valor, decimals: int)
    ensures var r := SafeDecimal(v, decimals);
      && MismoValor(SafeDecimal(Dec(r), decimals), r)
      && (r.exp == Exponente(decimals) ==> SafeDecimal(Dec(r), decimals) == r)
  {
    var r, e := SafeDecimal(v, decimals), Exponente(decimals);
    if r.exp == e {
      QuantizeIdempotente(r, e);
      assert Pow10(0) == 1;
    } else {
      assert r == CERO;
      if e <= -2 {
        assert Quantize(r, e).coef == 0;
      } else {
        assert MitadArriba(0, Pow10(e + 2)) == 0;
      }
    }
  }
}
