/**
 * The `pyg_intcomma` template filter (ventas/templatetags/filtros_paraguay.py): an amount in
 * guaraníes as an integer with '.' between groups of three digits, or the value unchanged
 * when `int()` refuses it.
 */
module FiltrosParaguay {
  import opened Base
  import opened PyText
  import opened Decimales

  /**
   * What reaches the filter: an int, a string, a Decimal, or a value `int()` raises TypeError
   * on (such as None), named by the text it renders as.
   */
  datatype Valor = Entero(i: int) | Texto(s: string) | Dec(d: Decimal) | Otro(o: string)

  /** What the template receives: formatted text, or the value itself. */
  datatype Salida = Formateado(s: string) | SinCambio(v: Valor)

  /** `int(value)`: None where it raises ValueError or TypeError. */
  function AEntero(v: Valor): Option<int>
  {
    match v
    case Entero(i) => Some(i)
    case Texto(s) => ParseInt(s)
    case Dec(d) => Some(Trunc(d))
    case Otro(_) => None
  }

  /** The digits `d` with '.' inserted between groups of three, counted from the right. */
  function Agrupar(d: string): string
  {
    if |d| <= 3 then d else Agrupar(d[..|d| - 3]) + "." + d[|d| - 3..]
  }

  /** `f"{n:,}".replace(",", ".")`. */
  function ConPuntos(n: int): string
  {
    if n < 0 then "-" + Agrupar(NatToString(-n)) else Agrupar(NatToString(n))
  }

  /** `pyg_intcomma(value)`. */
  function PygIntcomma(v: Valor): (r: Salida)
    ensures r.SinCambio? <==> AEntero(v).None?
    ensures r.SinCambio? ==> r.v == v
  {
    match AEntero(v)
    case None => SinCambio(v)
    case Some(n) => Formateado(ConPuntos(n))
  }

  /** `s` with every '.' removed. */
  function SinPuntos(s: string): (r: string)
    ensures |r| <= |s|
  {
    if s == [] then [] else (if s[0] == '.' then [] else [s[0]]) + SinPuntos(s[1..])
  }

  lemma {:induction false} SinPuntosConcat(a: string, b: string)
    ensures SinPuntos(a + b) == SinPuntos(a) + SinPuntos(b)
  {
    if a == [] {
      assert a + b == b;
    } else {
      assert (a + b)[1..] == a[1..] + b;
      SinPuntosConcat(a[1..], b);
    }
  }

  lemma {:induction false} SinPuntosDeDigitos(d: string)
    requires AllDigits(d)
    ensures SinPuntos(d) == d
  {
    if d != [] {
      SinPuntosDeDigitos(d[1..]);
    }
  }

  /** Grouping only inserts separators: removing them gives the digits back. */
  lemma {:induction false} AgruparSinPuntos(d: string)
    requires AllDigits(d)
    ensures SinPuntos(Agrupar(d)) == d
    decreases |d|
  {
    if |d| <= 3 {
      SinPuntosDeDigitos(d);
    } else {
      var a, b := d[..|d| - 3], d[|d| - 3..];
      assert AllDigits(a) && AllDigits(b);
      var ra := Agrupar(a);
      assert Agrupar(d) == (ra + ".") + b;
      AgruparSinPuntos(a);
      SinPuntosConcat(ra + ".", b);
      SinPuntosConcat(ra, ".");
      SinPuntosDeDigitos(b);
      assert SinPuntos(".") == [];
      assert SinPuntos(ra + ".") == a;
      assert d == a + b;
    }
  }

  /**
   * The layout of the grouped digits: one '.' per full group after the first, a '.' exactly
   * at every fourth position from the right, and digits everywhere else.
   */
  lemma {:induction false} AgruparPosiciones(d: string)
    requires d != [] && AllDigits(d)
    ensures var r := Agrupar(d);
      && |r| == |d| + (|d| - 1) / 3
      && (forall i :: 0 <= i < |r| ==> (r[i] == '.' <==> (|r| - i) % 4 == 0))
      && (forall i :: 0 <= i < |r| && r[i] != '.' ==> IsDigit(r[i]))
    decreases |d|
  {
    var r := Agrupar(d);
    if |d| <= 3 {
      forall i | 0 <= i < |r|
        ensures (r[i] == '.' <==> (|r| - i) % 4 == 0) && (r[i] != '.' ==> IsDigit(r[i]))
      {
        assert IsDigit(d[i]);
      }
    } else {
      var a, b := d[..|d| - 3], d[|d| - 3..];
      var ra := Agrupar(a);
      AgruparPosiciones(a);
      assert r == ra + "." + b;
      forall i | 0 <= i < |r|
        ensures (r[i] == '.' <==> (|r| - i) % 4 == 0) && (r[i] != '.' ==> IsDigit(r[i]))
      {
        if i < |ra| {
          assert r[i] == ra[i];
          assert |r| - i == (|ra| - i) + 4;
        } else if i > |ra| {
          assert r[i] == b[i - |ra| - 1] && IsDigit(b[i - |ra| - 1]);
        }
      }
    }
  }

  /**
   * The formatted integer: removing the '.'s gives `str(n)`, so the sign is kept and only a
   * negative starts with '-'; the digits are grouped in threes from the right; and there is
   * a separator exactly when the magnitude is 1000 or more.
   */
  lemma ConPuntosSpec(n: int)
    ensures var r := ConPuntos(n);
      && SinPuntos(r) == IntToString(n)
      && (r[0] == '-' <==> n < 0)
      && (var g := if n < 0 then r[1..] else r;
          g == Agrupar(NatToString(if n < 0 then -n else n))
          && forall i :: 0 <= i < |g| ==> ((g[i] == '.' <==> (|g| - i) % 4 == 0) && (g[i] != '.' ==> IsDigit(g[i]))))
      && ((-1000 < n < 1000) <==> '.' !in r)
  {
    var m: nat := if n < 0 then -n else n;
    var d := NatToString(m);
    var g := Agrupar(d);
    AgruparSinPuntos(d);
    AgruparPosiciones(d);
    NatToStringShort(m);
    var r := ConPuntos(n);
    if n < 0 {
      assert r == "-" + g && r[1..] == g;
      SinPuntosConcat("-", g);
      assert SinPuntos("-") == "-";
    }
    if |d| > 3 {
      assert g[|g| - 4] == '.';
      assert n < 0 ==> r[|g| - 3] == '.';
    } else {
      assert g == d;
      forall i | 0 <= i < |r| ensures r[i] != '.' {
        if n < 0 && i > 0 { assert r[i] == d[i - 1]; }
        else if n >= 0 { assert IsDigit(d[i]); }
      }
    }
  }

  /** So for every int-convertible value the filter shows `int(value)` in that form. */
  lemma PygIntcommaSpec(v: Valor)
    requires AEntero(v).Some?
    ensures PygIntcomma(v) == Formateado(ConPuntos(AEntero(v).value))
    ensures SinPuntos(PygIntcomma(v).s) == IntToString(AEntero(v).value)
  {
    ConPuntosSpec(AEntero(v).value);
  }

  /** A string that reads as an integer is formatted like that integer. */
  lemma PygIntcommaTexto(i: int)
    ensures PygIntcomma(Texto(IntToString(i))) == PygIntcomma(Entero(i))
  {
    ParseIntOfIntToString(i);
  }

  /** Text that is not an integer, such as "", "abc" or "1.5", and None come back as they were. */
  lemma PygIntcommaSinCambio()
    ensures PygIntcomma(Texto("")) == SinCambio(Texto(""))
    ensures PygIntcomma(Texto("abc")) == SinCambio(Texto("abc"))
    ensures PygIntcomma(Texto("1.5")) == SinCambio(Texto("1.5"))
    ensures PygIntcomma(Otro("None")) == SinCambio(Otro("None"))
  {
    ParseIntEmpty();
    var t := "1.5";
    StripNoSpace(t);
    assert !IsIntBody(t) by { assert t[1] == '.'; }
  }

  /** 1234567 becomes "1.234.567" and -1234 becomes "-1.234". */
  lemma PygIntcommaEjemplo()
    ensures PygIntcomma(Entero(1234567)) == Formateado("1.234.567")
    ensures PygIntcomma(Entero(-1234)) == Formateado("-1.234")
  {
    SieteDigitos();
    assert "1234567"[..4] == "1234" && "1234567"[4..] == "567";
    assert "1234"[..1] == "1" && "1234"[1..] == "234";
  }

  lemma SieteDigitos()
    ensures NatToString(1234) == "1234" && NatToString(1234567) == "1234567"
  {
    assert NatToString(1) == "1";
    assert NatToString(12) == "12";
    assert NatToString(123) == "123";
    assert NatToString(1234) == "1234";
    assert NatToString(12345) == "12345";
    assert NatToString(123456) == "123456";
  }
}
