/**
 * The part of Python's `decimal` module the sales helpers use: finite decimals as
 * coefficient x 10^exponent, `Decimal(str)` for plain and exponent notation, `quantize` with
 * ROUND_HALF_UP, and `int()` of a decimal (truncation toward zero). A zero's sign is not kept.
 */
module Decimales {
  import opened Base
  import opened PyText

  function Pow10(n: nat): (r: nat)
    ensures r >= 1
  {
    if n == 0 then 1 else 10 * Pow10(n - 1)
  }

  function Abs(i: int): nat { if i < 0 then -i else i }

  /** A finite `decimal.Decimal`: `coef` x 10^`exp`. */
  datatype Decimal = Decimal(coef: int, exp: int)

  /** Python's `==` on decimals: the same number, whatever the exponents. */
  predicate MismoValor(a: Decimal, b: Decimal)
  {
    var m := if a.exp < b.exp then a.exp else b.exp;
    a.coef * Pow10(a.exp - m) == b.coef * Pow10(b.exp - m)
  }

  /**
   * `d.quantize(Decimal(10) ** e, rounding=ROUND_HALF_UP)`: the exponent becomes `e`; digits
   * beyond it are rounded to nearest, a tie away from zero.
   */
  function Quantize(d: Decimal, e: int): (r: Decimal)
    ensures r.exp == e
  {
    if d.exp >= e then Decimal(d.coef * Pow10(d.exp - e), e)
    else Decimal(MitadArriba(d.coef, Pow10(e - d.exp)), e)
  }

  /** `x / p` rounded to an integer, half away from zero (ROUND_HALF_UP). */
  function MitadArriba(x: int, p: int): int
    requires p >= 1
  {
    var a := Abs(x);
    var m := if 2 * (a % p) >= p then a / p + 1 else a / p;
    if x < 0 then -m else m
  }

  /** `k * p >= p` for a positive `k` and a natural `p`. */
  lemma MultiploPositivo(k: int, p: nat)
    requires k >= 1
    ensures k * p >= p
  {
    var j: nat := k - 1;
    assert j * p >= 0;
    assert k * p == j * p + p;
  }

  /** Rounding a natural `a` to a multiple of `p`, half up: within half of `p`, a tie upward. */
  lemma MitadArribaNatural(a: nat, p: int)
    requires p >= 1
    ensures var m := if 2 * (a % p) >= p then a / p + 1 else a / p;
      m >= 0 && 2 * Abs(m * p - a) <= p && (2 * Abs(m * p - a) == p ==> m * p > a)
  {
    var q, rest := a / p, a % p;
    assert a == q * p + rest && 0 <= rest < p;
    assert q >= 0;
    if 2 * rest >= p {
      assert (q + 1) * p == q * p + p;
    }
  }

  /** Two multiples of `p` both within half of `p` of `x`, one strictly, are the same multiple. */
  lemma MasCercanoUnico(c: int, m: int, x: int, p: int)
    requires p >= 1 && 2 * Abs(c * p - x) < p && 2 * Abs(m * p - x) <= p
    ensures c == m
  {
    var u, v := c * p - x, m * p - x;
    assert -p < u - v < p;
    assert u - v == (c - m) * p;
    if c > m {
      MultiploPositivo(c - m, p);
    } else if c < m {
      MultiploPositivo(m - c, p);
    }
  }

  /** `-m * p == -(m * p)`, stated once so the rounding proofs stay linear. */
  lemma ProductoNegado(m: int, p: int)
    ensures (-m) * p == -(m * p)
  {
  }

  /**
   * ROUND_HALF_UP on integers, stated independently of the computation: the multiple of `p`
   * chosen is within half of `p` of `x`, a tie goes away from zero, and the sign is kept.
   */
  lemma MitadArribaCerca(x: int, p: int)
    requires p >= 1
    ensures var r := MitadArriba(x, p);
      && 2 * Abs(r * p - x) <= p
      && (2 * Abs(r * p - x) == p ==> Abs(r * p) > Abs(x))
      && (x >= 0 ==> r >= 0) && (x <= 0 ==> r <= 0)
  {
    var a := Abs(x);
    var mm := if 2 * (a % p) >= p then a / p + 1 else a / p;
    MitadArribaNatural(a, p);
    var rp := mm * p;
    if x < 0 {
      ProductoNegado(mm, p);
      assert MitadArriba(x, p) * p == -rp;
    } else {
      assert MitadArriba(x, p) * p == rp;
    }
  }

  /** No other multiple of `p` is strictly nearer to `x` than the rounded one. */
  lemma MitadArribaUnico(x: int, p: int, c: int)
    requires p >= 1 && 2 * Abs(c * p - x) < p
    ensures c == MitadArriba(x, p)
  {
    MitadArribaCerca(x, p);
    MasCercanoUnico(c, MitadArriba(x, p), x, p);
  }

  /** So `quantize` rounds the coefficient half up at the weight of the dropped digits. */
  lemma QuantizeRedondea(d: Decimal, e: int, c: int)
    requires d.exp < e
    ensures var p, r := Pow10(e - d.exp), Quantize(d, e).coef;
      && 2 * Abs(r * p - d.coef) <= p
      && (2 * Abs(r * p - d.coef) == p ==> Abs(r * p) > Abs(d.coef))
      && (d.coef >= 0 ==> r >= 0) && (d.coef <= 0 ==> r <= 0)
      && (2 * Abs(c * p - d.coef) < p ==> c == r)
  {
    var p := Pow10(e - d.exp);
    MitadArribaCerca(d.coef, p);
    if 2 * Abs(c * p - d.coef) < p {
      MitadArribaUnico(d.coef, p, c);
    }
  }

  /** Without digits to drop, quantizing only rewrites the exponent: the value is the same. */
  lemma QuantizeExacto(d: Decimal, e: int)
    requires d.exp >= e
    ensures MismoValor(Quantize(d, e), d)
  {
    assert Pow10(0) == 1;
  }

  /** Quantizing to the exponent a decimal already has changes nothing. */
  lemma QuantizeIdempotente(d: Decimal, e: int)
    ensures Quantize(Quantize(d, e), e) == Quantize(d, e)
  {
    assert Pow10(0) == 1;
  }

  /** `int(d)`: the integer part, truncated toward zero. */
  function Trunc(d: Decimal): int
  {
    if d.exp >= 0 then d.coef * Pow10(d.exp) else HaciaCero(d.coef, Pow10(-d.exp))
  }

  /** `x / p` truncated toward zero (Python's `int()` of a decimal; Dafny's `/` is Euclidean). */
  function HaciaCero(x: int, p: int): int
    requires p >= 1
  {
    if x < 0 then -(Abs(x) / p) else x / p
  }

  /** The quotient of natural division is the largest multiple not above the dividend. */
  lemma CocienteAcota(a: nat, p: int)
    requires p >= 1
    ensures (a / p) * p <= a < (a / p + 1) * p
  {
    var q := a / p;
    assert a == q * p + a % p && 0 <= a % p < p;
    assert (q + 1) * p == q * p + p;
  }

  /** Truncation keeps the sign and drops less than one unit of magnitude. */
  lemma HaciaCeroAcota(x: int, p: int)
    requires p >= 1
    ensures var t := HaciaCero(x, p);
      && Abs(t) * p <= Abs(x) < (Abs(t) + 1) * p
      && (x >= 0 ==> t >= 0) && (x <= 0 ==> t <= 0)
  {
    var a := Abs(x);
    var q := a / p;
    CocienteAcota(a, p);
    assert q >= 0;
    var t := HaciaCero(x, p);
    assert t == (if x < 0 then -q else q);
    assert Abs(t) == q;
  }

  /** So `int(d)` of a decimal with fractional digits is its integer part, toward zero. */
  lemma TruncAcota(d: Decimal)
    requires d.exp < 0
    ensures var t, p := Trunc(d), Pow10(-d.exp);
      && Abs(t) * p <= Abs(d.coef) < (Abs(t) + 1) * p
      && (d.coef >= 0 ==> t >= 0) && (d.coef <= 0 ==> t <= 0)
  {
    HaciaCeroAcota(d.coef, Pow10(-d.exp));
  }

  /** A decimal without fractional digits truncates to its own value. */
  lemma TruncExacto(d: Decimal)
    requires d.exp >= 0
    ensures MismoValor(d, Decimal(Trunc(d), 0))
  {
    assert Pow10(0) == 1;
  }

  // ---------------------------------------------------------------------------------------
  // Decimal(str)

  /** The exponent part after 'e' or 'E': an optional sign and at least one digit. */
  function ParseExponente(x: string): Option<int>
  {
    var neg := x != [] && x[0] == '-';
    var ds := if x != [] && (x[0] == '-' || x[0] == '+') then x[1..] else x;
    if ds != [] && AllDigits(ds) then
      var v: int := DigitsValue(ds);
      Some(if neg then -v else v)
    else None
  }

  /**
   * `Decimal(s)` for finite values: surrounding whitespace, an optional sign, digits with at
   * most one '.', at least one digit, and an optional exponent. Every '_' inside the stripped
   * text is dropped first, as both of Python's Decimal implementations do. None where Python
   * raises InvalidOperation (and for the special values, which are not modelled).
   */
  function ParseDecimal(s: string): (r: Option<Decimal>)
  {
    ParseConSigno(DropUnderscores(Strip(s)))
  }

  /** Text without '_' is kept by the underscore removal. */
  lemma {:induction false} SinGuiones(s: string)
    requires forall i :: 0 <= i < |s| ==> s[i] != '_'
    ensures DropUnderscores(s) == s
  {
    if s != [] {
      SinGuiones(s[1..]);
    }
  }

  /** The underscore removal keeps only characters of the text. */
  lemma {:induction false} GuionesSubconjunto(s: string, c: char)
    requires forall i :: 0 <= i < |s| ==> s[i] != c
    ensures forall i :: 0 <= i < |DropUnderscores(s)| ==> DropUnderscores(s)[i] != c
  {
    if s != [] {
      GuionesSubconjunto(s[1..], c);
    }
  }

  /** Digit groups separated by '_' read as the digits alone: `Decimal("1_000") == Decimal(1000)`. */
  lemma ParseDecimalConGuiones()
    ensures ParseDecimal("1_000") == Some(Decimal(1000, 0))
  {
    ParseMil("1_000");
  }

  lemma ParseMil(t: string)
    requires t == "1_000"
    ensures ParseDecimal(t) == Some(Decimal(1000, 0))
  {
    StripNoSpace(t);
    assert DropUnderscores(t) == "1000" by {
      assert t[1..] == "_000" && t[1..][1..] == "000";
      SinGuiones("000");
    }
    ParseSinSignoDigitos("1000");
    assert "1000"[..3] == "100" && "100"[..2] == "10" && "10"[..1] == "1" && "1"[..0] == "";
  }

  /** An optional sign before the unsigned number. */
  function ParseConSigno(t: string): Option<Decimal>
  {
    if t != [] && t[0] == '-' then
      match ParseSinSigno(t[1..])
      case None => None
      case Some(d) => Some(Decimal(-d.coef, d.exp))
    else if t != [] && t[0] == '+' then ParseSinSigno(t[1..])
    else ParseSinSigno(t)
  }

  /** Digits with at most one '.', then optionally 'e' or 'E' and the exponent. */
  function ParseSinSigno(t: string): Option<Decimal>
  {
    var ie := if IndexOf(t, 'e') < IndexOf(t, 'E') then IndexOf(t, 'e') else IndexOf(t, 'E');
    var mantisa := t[..ie];
    var ip := IndexOf(mantisa, '.');
    var entera := mantisa[..ip];
    var fraccion := if ip < |mantisa| then mantisa[ip + 1..] else "";
    var exponente := if ie == |t| then Some(0) else ParseExponente(t[ie + 1..]);
    if AllDigits(entera) && AllDigits(fraccion) && |entera| + |fraccion| > 0 && exponente.Some? then
      Some(Decimal(DigitsValue(entera + fraccion), exponente.value - |fraccion|))
    else None
  }

  /** `Decimal(str(i)) == Decimal(i)`: an integer's text is parsed back to it, exponent 0. */
  lemma ParseDecimalDeEntero(i: int)
    ensures ParseDecimal(IntToString(i)) == Some(Decimal(i, 0))
  {
    var m: nat := if i < 0 then -i else i;
    var d := NatToString(m);
    var s := IntToString(i);
    assert !IsSpace(d[0]) && !IsSpace(d[|d| - 1]);
    assert s[|s| - 1] == d[|d| - 1];
    StripNoSpace(s);
    NatToStringValue(m);
    ParseSinSignoDigitos(d);
    if i < 0 {
      assert s[1..] == d;
    } else {
      assert s == d && !(d[0] == '-' || d[0] == '+');
    }
    assert ParseConSigno(s) == Some(Decimal(i, 0));
    ParseDecimalDirecto(s);
  }

  /** Text without surrounding whitespace or '_' is parsed as it stands. */
  lemma ParseDecimalDirecto(s: string)
    requires Strip(s) == s && forall i :: 0 <= i < |s| ==> s[i] != '_'
    ensures ParseDecimal(s) == ParseConSigno(s)
  {
    SinGuiones(s);
  }

  /** A character that is not a digit does not occur in a run of digits. */
  lemma SinCaracter(d: string, c: char)
    requires AllDigits(d) && !IsDigit(c)
    ensures IndexOf(d, c) == |d|
  {
  }

  /** A plain run of digits is an integer with exponent 0. */
  lemma ParseSinSignoDigitos(d: string)
    requires d != [] && AllDigits(d)
    ensures ParseSinSigno(d) == Some(Decimal(DigitsValue(d), 0))
  {
    SinCaracter(d, 'e');
    SinCaracter(d, 'E');
    SinCaracter(d, '.');
    var mantisa := d[..|d|];
    assert mantisa == d;
    assert mantisa[..|d|] == d && d + "" == d;
  }

  /** Text without digits, such as the empty string, is refused. */
  lemma ParseDecimalSinDigitos(s: string)
    requires forall i :: 0 <= i < |s| ==> !IsDigit(s[i])
    ensures ParseDecimal(s).None?
  {
    StripShape(s);
    var t := DropUnderscores(Strip(s));
    forall c: char | IsDigit(c) ensures forall i :: 0 <= i < |t| ==> t[i] != c {
      GuionesSubconjunto(Strip(s), c);
    }
    assert forall i :: 0 <= i < |t| ==> !IsDigit(t[i]);
    if t != [] && (t[0] == '-' || t[0] == '+') {
      ParseSinSignoSinDigitos(t[1..]);
    } else {
      ParseSinSignoSinDigitos(t);
    }
  }

  lemma ParseSinSignoSinDigitos(t: string)
    requires forall i :: 0 <= i < |t| ==> !IsDigit(t[i])
    ensures ParseSinSigno(t).None?
  {
    var ie := if IndexOf(t, 'e') < IndexOf(t, 'E') then IndexOf(t, 'e') else IndexOf(t, 'E');
    var mantisa := t[..ie];
    var ip := IndexOf(mantisa, '.');
    assert forall i :: 0 <= i < |mantisa[..ip]| ==> mantisa[..ip][i] == t[i];
    if ip < |mantisa| {
      var f := mantisa[ip + 1..];
      assert forall i :: 0 <= i < |f| ==> f[i] == t[ip + 1 + i];
    }
  }

  /** A leading '-' before a number without surrounding whitespace negates its coefficient. */
  lemma ParseDecimalNegado(u: string)
    requires u != [] && IsDigit(u[0]) && !IsSpace(u[|u| - 1])
    ensures var r := ParseDecimal("-" + u);
      && ParseDecimal(u).Some? == r.Some?
      && (r.Some? ==> r.value == Decimal(-ParseDecimal(u).value.coef, ParseDecimal(u).value.exp))
  {
    StripNoSpace(u);
    StripNoSpace("-" + u);
    assert ("-" + u)[1..] == u;
    assert DropUnderscores("-" + u) == "-" + DropUnderscores(u);
    assert DropUnderscores(u)[0] == u[0];
  }
}
