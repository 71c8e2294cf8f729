/**
 * The purchase-order line-item formset in the browser (compras/static/js/compras/ordenes.js):
 * renumbering the `form-N-` prefix of field names and ids, cloning the first row with a new
 * index, and recomputing each row's subtotal. The DOM is modelled as the rows' fields; numbers
 * are exact decimals rather than JavaScript doubles.
 */
module Ordenes {
  import opened Base
  import opened PyText
  import opened Decimales
  import opened JsNumeros

  // ---------------------------------------------------------------------------------------
  // The regular expressions /form-\d+-/ and /id_form-\d+-/

  /** The prefix, one or more digits, and '-' start at `k`. */
  predicate CoincideEn(s: string, pre: string, k: nat)
  {
    && k + |pre| <= |s| && s[k..k + |pre|] == pre
    && var n := DigitRunEnd(s, k + |pre|);
      k + |pre| < n < |s| && s[n] == '-'
  }

  /** The leftmost match at or after `k`, as a JavaScript regular expression finds it. */
  function Primera(s: string, pre: string, k: nat): (r: Option<nat>)
    ensures r.Some? ==> k <= r.value < |s| && CoincideEn(s, pre, r.value)
    decreases |s| - k
  {
    if k >= |s| then None
    else if CoincideEn(s, pre, k) then Some(k)
    else Primera(s, pre, k + 1)
  }

  /** The search finds the leftmost match, and finds none only when there is none. */
  lemma {:induction false} PrimeraSpec(s: string, pre: string, k: nat)
    ensures var r := Primera(s, pre, k);
      && (r.Some? ==> forall j :: k <= j < r.value ==> !CoincideEn(s, pre, j))
      && (r.None? ==> forall j :: k <= j ==> !CoincideEn(s, pre, j))
    decreases |s| - k
  {
    if k < |s| && !CoincideEn(s, pre, k) {
      PrimeraSpec(s, pre, k + 1);
    }
  }

  /** The two prefixes the script rewrites: their first letter occurs nowhere else in them. */
  predicate Prefijo(pre: string)
  {
    pre == "form-" || pre == "id_form-"
  }

  lemma PrefijoForma(pre: string)
    requires Prefijo(pre)
    ensures |pre| >= 1 && !IsDigit(pre[0]) && pre[0] != '-'
    ensures forall t :: 0 < t < |pre| ==> pre[t] != pre[0]
  {
  }

  /** `s.replace(/<pre>\d+-/, `<pre>${index}-`)`: only the first match is rewritten. */
  function Renumerar(s: string, pre: string, index: nat): (r: string)
  {
    match Primera(s, pre, 0)
    case None => s
    case Some(k) => Sustituir(s, k, pre + NatToString(index) + "-", DigitRunEnd(s, k + |pre|) + 1)
  }

  /** `s` with `s[k..e]` replaced by `t`. */
  function Sustituir(s: string, k: nat, t: string, e: nat): string
    requires k <= e <= |s|
  {
    s[..k] + t + s[e..]
  }

  /** The index the first match carries, if there is a match. */
  function Indice(s: string, pre: string): Option<nat>
  {
    match Primera(s, pre, 0)
    case None => None
    case Some(k) => Some(DigitsValue(s[k + |pre|..DigitRunEnd(s, k + |pre|)]))
  }

  /**
   * A match at `j` before a copy of the prefix at `k` cannot reach past `k`, so a string that
   * agrees with `r` up to the end of that copy has the same match at `j`.
   */
  lemma CoincidenciaLocal(s: string, r: string, pre: string, j: nat, k: nat)
    requires Prefijo(pre) && j < k && k + |pre| <= |s| && k + |pre| <= |r|
    requires r[..k + |pre|] == s[..k + |pre|] && r[k..k + |pre|] == pre
    requires CoincideEn(r, pre, j)
    ensures CoincideEn(s, pre, j)
  {
    PrefijoForma(pre);
    var a := j + |pre|;
    var n := DigitRunEnd(r, a);
    assert forall t :: j <= t < a ==> r[t] == pre[t - j];
    assert r[k] == pre[0];
    assert a <= k;
    assert n < k;
    assert forall t :: 0 <= t < k + |pre| ==> r[t] == s[t];
    assert s[j..a] == r[j..a];
    DigitRunEndAt(s, a, n);
  }

  /** Where the pieces of a concatenation `a + p + d + "-" + b` lie. */
  lemma Piezas(a: string, p: string, d: string, b: string)
    ensures var r, fin := a + p + d + "-" + b, |a| + |p| + |d|;
      && fin < |r| && r[..|a| + |p|] == a + p && r[|a|..|a| + |p|] == p
      && r[|a| + |p|..fin] == d && r[fin] == '-' && r[fin + 1..] == b
  {
    var r := a + p + d + "-" + b;
    assert r == (a + p) + (d + "-" + b);
  }

  /** The pieces of `s` with the match at `k`, whose digits end at `e`, rewritten to `pre + d + "-"`. */
  lemma SustituirForma(s: string, pre: string, k: nat, e: nat, d: string)
    requires CoincideEn(s, pre, k) && DigitRunEnd(s, k + |pre|) == e
    ensures e < |s|
    ensures var r, fin := Sustituir(s, k, pre + d + "-", e + 1), k + |pre| + |d|;
      && fin < |r| && r[..k + |pre|] == s[..k + |pre|] && r[k..k + |pre|] == pre
      && r[k + |pre|..fin] == d && r[fin] == '-' && r[fin + 1..] == s[e + 1..]
  {
    Piezas(s[..k], pre, d, s[e + 1..]);
    assert Sustituir(s, k, pre + d + "-", e + 1) == s[..k] + pre + d + "-" + s[e + 1..];
    assert s[..k + |pre|] == s[..k] + s[k..k + |pre|];
  }

  /** The leftmost match is `k` when there is one at `k` and none before. */
  lemma {:induction false} PrimeraDesde(s: string, pre: string, i: nat, k: nat)
    requires i <= k && CoincideEn(s, pre, k) && forall j :: i <= j < k ==> !CoincideEn(s, pre, j)
    ensures Primera(s, pre, i) == Some(k)
    decreases k - i
  {
    if i < k {
      PrimeraDesde(s, pre, i + 1, k);
    }
  }

  lemma PrimeraEn(s: string, pre: string, k: nat)
    requires CoincideEn(s, pre, k) && forall j :: 0 <= j < k ==> !CoincideEn(s, pre, j)
    ensures Primera(s, pre, 0) == Some(k)
  {
    PrimeraDesde(s, pre, 0, k);
  }

  /**
   * After the rewrite the match is still at `k`, now ending after `d`, with no match before it,
   * and the text before and after the match is as it was.
   */
  lemma SustituirPrimera(s: string, pre: string, k: nat, e: nat, d: string)
    requires Prefijo(pre) && d != [] && AllDigits(d)
    requires CoincideEn(s, pre, k) && DigitRunEnd(s, k + |pre|) == e
    requires forall j :: 0 <= j < k ==> !CoincideEn(s, pre, j)
    ensures e < |s|
    ensures var r, fin := Sustituir(s, k, pre + d + "-", e + 1), k + |pre| + |d|;
      && fin < |r| && CoincideEn(r, pre, k) && DigitRunEnd(r, k + |pre|) == fin
      && (forall j :: 0 <= j < k ==> !CoincideEn(r, pre, j))
      && r[..k] == s[..k] && r[fin + 1..] == s[e + 1..]
  {
    var r, fin := Sustituir(s, k, pre + d + "-", e + 1), k + |pre| + |d|;
    SustituirForma(s, pre, k, e, d);
    assert forall t :: k + |pre| <= t < fin ==> r[t] == d[t - k - |pre|];
    DigitRunEndAt(r, k + |pre|, fin);
    assert r[..k] == r[..k + |pre|][..k];
    forall j | 0 <= j < k ensures !CoincideEn(r, pre, j) {
      if CoincideEn(r, pre, j) {
        CoincidenciaLocal(s, r, pre, j, k);
      }
    }
  }

  /** Renumbering with the first match at `k` whose digits end at `e`. */
  lemma RenumerarEn(s: string, pre: string, index: nat, k: nat, e: nat)
    requires Primera(s, pre, 0) == Some(k) && DigitRunEnd(s, k + |pre|) == e
    ensures Renumerar(s, pre, index) == Sustituir(s, k, pre + NatToString(index) + "-", e + 1)
  {
  }

  /**
   * The renumbered string has its first match where the original had it, now ending after
   * the new digits, with everything before and after the match as it was.
   */
  lemma RenumerarPrimera(s: string, pre: string, index: nat, k: nat, e: nat)
    requires Prefijo(pre) && Primera(s, pre, 0) == Some(k) && DigitRunEnd(s, k + |pre|) == e
    ensures var r, fin := Renumerar(s, pre, index), k + |pre| + |NatToString(index)|;
      && Primera(r, pre, 0) == Some(k) && DigitRunEnd(r, k + |pre|) == fin
      && r[..k] == s[..k] && r[fin + 1..] == s[e + 1..]
  {
    var d := NatToString(index);
    PrimeraSpec(s, pre, 0);
    RenumerarEn(s, pre, index, k, e);
    SustituirPrimera(s, pre, k, e, d);
    PrimeraEn(Renumerar(s, pre, index), pre, k);
  }

  /** The index of a string whose first match is at `k` with its digits ending at `fin`. */
  lemma IndiceEn(r: string, pre: string, k: nat, fin: nat)
    requires Primera(r, pre, 0) == Some(k) && DigitRunEnd(r, k + |pre|) == fin
    ensures Indice(r, pre) == Some(DigitsValue(r[k + |pre|..fin]))
  {
  }

  /** The renumbered string carries the new digits right after the prefix of its match. */
  lemma RenumerarDigitos(s: string, pre: string, index: nat, k: nat, e: nat)
    requires Primera(s, pre, 0) == Some(k) && DigitRunEnd(s, k + |pre|) == e
    ensures var r, fin := Renumerar(s, pre, index), k + |pre| + |NatToString(index)|;
      fin <= |r| && r[k + |pre|..fin] == NatToString(index)
  {
    RenumerarEn(s, pre, index, k, e);
    SustituirForma(s, pre, k, e, NatToString(index));
  }

  lemma RenumerarLeeEn(s: string, pre: string, index: nat, k: nat, e: nat)
    requires Prefijo(pre) && Primera(s, pre, 0) == Some(k) && DigitRunEnd(s, k + |pre|) == e
    ensures Indice(Renumerar(s, pre, index), pre) == Some(index)
  {
    var r, d := Renumerar(s, pre, index), NatToString(index);
    var fin := k + |pre| + |d|;
    RenumerarDigitos(s, pre, index, k, e);
    RenumerarPrimera(s, pre, index, k, e);
    IndiceEn(r, pre, k, fin);
    NatToStringValue(index);
  }

  /** Renumbering reads back: the first match of the result carries `index`. */
  lemma RenumerarLee(s: string, pre: string, index: nat)
    requires Prefijo(pre) && Primera(s, pre, 0).Some?
    ensures Indice(Renumerar(s, pre, index), pre) == Some(index)
  {
    var k := Primera(s, pre, 0).value;
    RenumerarLeeEn(s, pre, index, k, DigitRunEnd(s, k + |pre|));
  }

  lemma RenumerarDosVecesEn(s: string, pre: string, i: nat, j: nat, k: nat, e: nat)
    requires Prefijo(pre) && Primera(s, pre, 0) == Some(k) && DigitRunEnd(s, k + |pre|) == e
    ensures Renumerar(Renumerar(s, pre, i), pre, j) == Renumerar(s, pre, j)
  {
    var r := Renumerar(s, pre, i);
    var fin := k + |pre| + |NatToString(i)|;
    var t := pre + NatToString(j) + "-";
    RenumerarPrimera(s, pre, i, k, e);
    RenumerarEn(r, pre, j, k, fin);
    RenumerarEn(s, pre, j, k, e);
    assert Sustituir(r, k, t, fin + 1) == Sustituir(s, k, t, e + 1);
  }

  /** Renumbering again overrides the earlier renumbering: only the last index counts. */
  lemma RenumerarDosVeces(s: string, pre: string, i: nat, j: nat)
    requires Prefijo(pre)
    ensures Renumerar(Renumerar(s, pre, i), pre, j) == Renumerar(s, pre, j)
  {
    if Primera(s, pre, 0).Some? {
      var k := Primera(s, pre, 0).value;
      RenumerarDosVecesEn(s, pre, i, j, k, DigitRunEnd(s, k + |pre|));
    }
  }

  /** A non-empty id stays non-empty, so the `if (input.id)` test gives the same answer again. */
  lemma RenumerarNoVacio(s: string, pre: string, index: nat)
    requires s != []
    ensures Renumerar(s, pre, index) != []
  {
    if Primera(s, pre, 0).Some? {
      var k := Primera(s, pre, 0).value;
      var t := pre + NatToString(index) + "-";
      RenumerarEn(s, pre, index, k, DigitRunEnd(s, k + |pre|));
      assert |Sustituir(s, k, t, DigitRunEnd(s, k + |pre|) + 1)| >= |t| >= 1;
    }
  }

  // ---------------------------------------------------------------------------------------
  // Rows of the formset

  /** An input, select or textarea: its name, its id ("" when it has none), value and checked state. */
  datatype Campo = Campo(name: string, id: string, value: string, checked: bool)

  /** A `.detalle-form` row: its fields in document order and its labels' `htmlFor` ("" when unset). */
  datatype Fila = Fila(campos: seq<Campo>, etiquetas: seq<string>)

  /** One field under `updateFormIndexes`: the name always, the id only when it has one. */
  function RenumerarCampo(c: Campo, index: nat): Campo
  {
    c.(name := Renumerar(c.name, "form-", index),
       id := if c.id != "" then Renumerar(c.id, "id_form-", index) else c.id)
  }

  /** One label under `updateFormIndexes`: its `htmlFor` when it has one. */
  function RenumerarEtiqueta(h: string, index: nat): string
  {
    if h != "" then Renumerar(h, "id_form-", index) else h
  }

  /** The row `updateFormIndexes(row, index)` leaves. */
  function Renumerada(f: Fila, index: nat): Fila
  {
    Fila(seq(|f.campos|, k requires 0 <= k < |f.campos| => RenumerarCampo(f.campos[k], index)),
         seq(|f.etiquetas|, k requires 0 <= k < |f.etiquetas| => RenumerarEtiqueta(f.etiquetas[k], index)))
  }

  /** `updateFormIndexes(row, index)`: the two forEach loops, over the fields and over the labels. */
  method UpdateFormIndexes(f: Fila, index: nat) returns (r: Fila)
    ensures r == Renumerada(f, index)
  {
    var campos := f.campos;
    var i := 0;
    while i < |campos|
      invariant 0 <= i <= |campos| == |f.campos|
      invariant forall k :: 0 <= k < i ==> campos[k] == RenumerarCampo(f.campos[k], index)
      invariant forall k :: i <= k < |campos| ==> campos[k] == f.campos[k]
    {
      var c := campos[i];
      c := c.(name := Renumerar(c.name, "form-", index));
      if c.id != "" {
        c := c.(id := Renumerar(c.id, "id_form-", index));
      }
      campos := campos[i := c];
      i := i + 1;
    }
    var etiquetas := f.etiquetas;
    var j := 0;
    while j < |etiquetas|
      invariant 0 <= j <= |etiquetas| == |f.etiquetas|
      invariant forall k :: 0 <= k < j ==> etiquetas[k] == RenumerarEtiqueta(f.etiquetas[k], index)
      invariant forall k :: j <= k < |etiquetas| ==> etiquetas[k] == f.etiquetas[k]
    {
      if etiquetas[j] != "" {
        etiquetas := etiquetas[j := Renumerar(etiquetas[j], "id_form-", index)];
      }
      j := j + 1;
    }
    r := Fila(campos, etiquetas);
  }

  /**
   * `despues` is `antes` renumbered to `index`: without a match it is unchanged, with one its
   * first match now carries `index`.
   */
  predicate Reindexado(antes: string, despues: string, pre: string, index: nat)
  {
    && (Primera(antes, pre, 0).None? ==> despues == antes)
    && (Primera(antes, pre, 0).Some? ==> Indice(despues, pre) == Some(index))
  }

  lemma ReindexadoRenumerar(s: string, pre: string, index: nat)
    requires Prefijo(pre)
    ensures Reindexado(s, Renumerar(s, pre, index), pre, index)
  {
    if Primera(s, pre, 0).Some? {
      RenumerarLee(s, pre, index);
    }
  }

  /**
   * Renumbering a row keeps its fields and labels in place with their values and checked
   * states, and renumbers every name, id and `htmlFor`; an empty id or `htmlFor` stays empty.
   */
  lemma RenumeradaSpec(f: Fila, index: nat)
    ensures var r := Renumerada(f, index);
      && |r.campos| == |f.campos| && |r.etiquetas| == |f.etiquetas|
      && (forall k :: 0 <= k < |f.campos| ==>
            r.campos[k].value == f.campos[k].value && r.campos[k].checked == f.campos[k].checked)
      && (forall k :: 0 <= k < |f.campos| ==> Reindexado(f.campos[k].name, r.campos[k].name, "form-", index))
      && (forall k :: 0 <= k < |f.campos| ==> Reindexado(f.campos[k].id, r.campos[k].id, "id_form-", index))
      && (forall k :: 0 <= k < |f.campos| ==> (r.campos[k].id == "" <==> f.campos[k].id == ""))
      && (forall k :: 0 <= k < |f.etiquetas| ==> Reindexado(f.etiquetas[k], r.etiquetas[k], "id_form-", index))
  {
    var r := Renumerada(f, index);
    forall k | 0 <= k < |f.campos|
      ensures Reindexado(f.campos[k].name, r.campos[k].name, "form-", index)
      ensures Reindexado(f.campos[k].id, r.campos[k].id, "id_form-", index)
      ensures r.campos[k].id == "" <==> f.campos[k].id == ""
    {
      var c := f.campos[k];
      ReindexadoRenumerar(c.name, "form-", index);
      if c.id != "" {
        ReindexadoRenumerar(c.id, "id_form-", index);
        RenumerarNoVacio(c.id, "id_form-", index);
      }
    }
    forall k | 0 <= k < |f.etiquetas|
      ensures Reindexado(f.etiquetas[k], r.etiquetas[k], "id_form-", index)
    {
      if f.etiquetas[k] != "" {
        ReindexadoRenumerar(f.etiquetas[k], "id_form-", index);
      }
    }
  }

  /** Cloning a row that was itself renumbered gives what renumbering the original gives. */
  lemma RenumeradaDosVeces(f: Fila, i: nat, j: nat)
    ensures Renumerada(Renumerada(f, i), j) == Renumerada(f, j)
  {
    var g, r, t := Renumerada(f, i), Renumerada(Renumerada(f, i), j), Renumerada(f, j);
    forall k | 0 <= k < |f.campos| ensures r.campos[k] == t.campos[k] {
      var c := f.campos[k];
      RenumerarDosVeces(c.name, "form-", i, j);
      if c.id != "" {
        RenumerarDosVeces(c.id, "id_form-", i, j);
        RenumerarNoVacio(c.id, "id_form-", i);
      }
    }
    forall k | 0 <= k < |f.etiquetas| ensures r.etiquetas[k] == t.etiquetas[k] {
      var h := f.etiquetas[k];
      if h != "" {
        RenumerarDosVeces(h, "id_form-", i, j);
        RenumerarNoVacio(h, "id_form-", i);
      }
    }
    assert r.campos == t.campos && r.etiquetas == t.etiquetas;
  }

  // ---------------------------------------------------------------------------------------
  // querySelector('[id$="<suffix>"]') and the fields it finds

  predicate TerminaEn(s: string, suf: string)
  {
    |suf| <= |s| && s[|s| - |suf|..] == suf
  }

  /** The first field at or after `i` whose id ends with `suf`, in document order. */
  function Buscar(cs: seq<Campo>, suf: string, i: nat): (r: Option<nat>)
    ensures r.Some? ==> i <= r.value < |cs| && TerminaEn(cs[r.value].id, suf)
    decreases |cs| - i
  {
    if i >= |cs| then None
    else if TerminaEn(cs[i].id, suf) then Some(i)
    else Buscar(cs, suf, i + 1)
  }

  /** The search finds the first matching field, and finds none only when no field matches. */
  lemma {:induction false} BuscarSpec(cs: seq<Campo>, suf: string, i: nat)
    ensures var r := Buscar(cs, suf, i);
      && (r.Some? ==> forall j :: i <= j < r.value ==> !TerminaEn(cs[j].id, suf))
      && (r.None? ==> forall j :: i <= j < |cs| ==> !TerminaEn(cs[j].id, suf))
    decreases |cs| - i
  {
    if i < |cs| && !TerminaEn(cs[i].id, suf) {
      BuscarSpec(cs, suf, i + 1);
    }
  }

  /** Rows whose fields carry the same ids, in the same order. */
  predicate MismosIds(cs: seq<Campo>, ds: seq<Campo>)
  {
    |cs| == |ds| && forall k :: 0 <= k < |cs| ==> cs[k].id == ds[k].id
  }

  /** The search reads only the ids. */
  lemma {:induction false} BuscarIds(cs: seq<Campo>, ds: seq<Campo>, suf: string, i: nat)
    requires MismosIds(cs, ds)
    ensures Buscar(cs, suf, i) == Buscar(ds, suf, i)
    decreases |cs| - i
  {
    if i < |cs| {
      BuscarIds(cs, ds, suf, i + 1);
    }
  }

  /** An id that ends with `suf` ends with its last two letters. */
  lemma UltimasLetras(s: string, suf: string)
    requires |suf| >= 2
    ensures TerminaEn(s, suf) ==> s[|s| - 1] == suf[|suf| - 1] && s[|s| - 2] == suf[|suf| - 2]
  {
    if TerminaEn(s, suf) {
      var t := s[|s| - |suf|..];
      assert t[|suf| - 1] == s[|s| - 1] && t[|suf| - 2] == s[|s| - 2];
    }
  }

  /** Suffixes whose last two letters differ: no id ends with both. */
  lemma SufijosDistintos(s: string, u: string, v: string)
    requires |u| >= 2 && |v| >= 2 && (u[|u| - 1] != v[|v| - 1] || u[|u| - 2] != v[|v| - 2])
    ensures !(TerminaEn(s, u) && TerminaEn(s, v))
  {
    UltimasLetras(s, u);
    UltimasLetras(s, v);
  }

  const PRODUCTO := "-producto"
  const CANTIDAD := "-cantidad"
  const PRECIO := "-precio_unitario"
  const SUBTOTAL := "-subtotal"
  const DELETE := "-DELETE"

  /** `row.querySelector('[id$="<suf>"]').value`, None where the query finds nothing. */
  function ValorDe(f: Fila, suf: string): Option<string>
  {
    match Buscar(f.campos, suf, 0)
    case None => None
    case Some(k) => Some(f.campos[k].value)
  }

  /** No id ends with two of the five suffixes the script queries. */
  lemma CincoSufijos(s: string)
    ensures !(TerminaEn(s, PRODUCTO) && TerminaEn(s, CANTIDAD)) && !(TerminaEn(s, PRODUCTO) && TerminaEn(s, PRECIO))
    ensures !(TerminaEn(s, PRODUCTO) && TerminaEn(s, SUBTOTAL)) && !(TerminaEn(s, PRODUCTO) && TerminaEn(s, DELETE))
    ensures !(TerminaEn(s, CANTIDAD) && TerminaEn(s, PRECIO)) && !(TerminaEn(s, CANTIDAD) && TerminaEn(s, SUBTOTAL))
    ensures !(TerminaEn(s, CANTIDAD) && TerminaEn(s, DELETE)) && !(TerminaEn(s, PRECIO) && TerminaEn(s, SUBTOTAL))
    ensures !(TerminaEn(s, PRECIO) && TerminaEn(s, DELETE)) && !(TerminaEn(s, SUBTOTAL) && TerminaEn(s, DELETE))
  {
    UltimasLetras(s, PRODUCTO);
    UltimasLetras(s, CANTIDAD);
    UltimasLetras(s, PRECIO);
    UltimasLetras(s, SUBTOTAL);
    UltimasLetras(s, DELETE);
  }

  /**
   * The five assignments of `cloneRow` to the renumbered clone: producto '', cantidad '1',
   * precio_unitario and subtotal '0.00', DELETE unchecked. A query that finds nothing throws
   * a TypeError, and the clone is dropped.
   */
  function Limpiar(f: Fila): Option<Fila>
  {
    var cs := f.campos;
    match (Buscar(cs, PRODUCTO, 0), Buscar(cs, CANTIDAD, 0), Buscar(cs, PRECIO, 0), Buscar(cs, SUBTOTAL, 0),
           Buscar(cs, DELETE, 0))
    case (Some(a), Some(b), Some(c), Some(d), Some(e)) =>
      Some(f.(campos := cs[a := cs[a].(value := "")][b := cs[b].(value := "1")][c := cs[c].(value := "0.00")]
                          [d := cs[d].(value := "0.00")][e := cs[e].(checked := false)]))
    case _ => None
  }

  /** The row has a field for each of the five suffixes `cloneRow` resets. */
  predicate CamposDeLinea(f: Fila)
  {
    && Buscar(f.campos, PRODUCTO, 0).Some? && Buscar(f.campos, CANTIDAD, 0).Some?
    && Buscar(f.campos, PRECIO, 0).Some? && Buscar(f.campos, SUBTOTAL, 0).Some? && Buscar(f.campos, DELETE, 0).Some?
  }

  /** `row.querySelector('[id$="<suf>"]').checked`, None where the query finds nothing. */
  function MarcadoDe(f: Fila, suf: string): Option<bool>
  {
    match Buscar(f.campos, suf, 0)
    case None => None
    case Some(k) => Some(f.campos[k].checked)
  }

  /** The five fields the queries find are five different fields. */
  lemma CincoDistintos(f: Fila, a: nat, b: nat, c: nat, d: nat, e: nat)
    requires Buscar(f.campos, PRODUCTO, 0) == Some(a) && Buscar(f.campos, CANTIDAD, 0) == Some(b)
    requires Buscar(f.campos, PRECIO, 0) == Some(c) && Buscar(f.campos, SUBTOTAL, 0) == Some(d)
    requires Buscar(f.campos, DELETE, 0) == Some(e)
    ensures a != b && a != c && a != d && a != e && b != c && b != d && b != e && c != d && c != e && d != e
  {
    CincoSufijos(f.campos[a].id);
    CincoSufijos(f.campos[b].id);
    CincoSufijos(f.campos[c].id);
    CincoSufijos(f.campos[d].id);
  }

  /** The reset with the five fields found at `a` to `e`: exactly those five change. */
  lemma LimpiarEn(f: Fila, a: nat, b: nat, c: nat, d: nat, e: nat)
    requires Buscar(f.campos, PRODUCTO, 0) == Some(a) && Buscar(f.campos, CANTIDAD, 0) == Some(b)
    requires Buscar(f.campos, PRECIO, 0) == Some(c) && Buscar(f.campos, SUBTOTAL, 0) == Some(d)
    requires Buscar(f.campos, DELETE, 0) == Some(e)
    ensures Limpiar(f).Some?
    ensures var g := Limpiar(f).value;
      && g.etiquetas == f.etiquetas && |g.campos| == |f.campos|
      && g.campos[a] == f.campos[a].(value := "") && g.campos[b] == f.campos[b].(value := "1")
      && g.campos[c] == f.campos[c].(value := "0.00") && g.campos[d] == f.campos[d].(value := "0.00")
      && g.campos[e] == f.campos[e].(checked := false)
      && forall k :: 0 <= k < |f.campos| && k != a && k != b && k != c && k != d && k != e ==> g.campos[k] == f.campos[k]
  {
    CincoDistintos(f, a, b, c, d, e);
  }

  /**
   * The reset fails exactly when a field is missing. Otherwise it keeps every name and id and
   * the labels, and the five queries then read '', '1', '0.00', '0.00' and unchecked.
   */
  lemma LimpiarSpec(f: Fila)
    ensures Limpiar(f).Some? <==> CamposDeLinea(f)
    ensures Limpiar(f).Some? ==> var g := Limpiar(f).value;
      && g.etiquetas == f.etiquetas && MismosIds(g.campos, f.campos)
      && (forall k :: 0 <= k < |f.campos| ==> g.campos[k].name == f.campos[k].name)
      && ValorDe(g, PRODUCTO) == Some("") && ValorDe(g, CANTIDAD) == Some("1")
      && ValorDe(g, PRECIO) == Some("0.00") && ValorDe(g, SUBTOTAL) == Some("0.00")
      && MarcadoDe(g, DELETE) == Some(false)
  {
    if CamposDeLinea(f) {
      var cs := f.campos;
      var a, b, c, d, e := Buscar(cs, PRODUCTO, 0).value, Buscar(cs, CANTIDAD, 0).value,
        Buscar(cs, PRECIO, 0).value, Buscar(cs, SUBTOTAL, 0).value, Buscar(cs, DELETE, 0).value;
      LimpiarEn(f, a, b, c, d, e);
      var g := Limpiar(f).value;
      assert MismosIds(g.campos, cs);
      BuscarIds(g.campos, cs, PRODUCTO, 0);
      BuscarIds(g.campos, cs, CANTIDAD, 0);
      BuscarIds(g.campos, cs, PRECIO, 0);
      BuscarIds(g.campos, cs, SUBTOTAL, 0);
      BuscarIds(g.campos, cs, DELETE, 0);
    }
  }

  /** The row `cloneRow` appends: the template renumbered to `index`, then reset. */
  function Clon(plantilla: Fila, index: nat): Option<Fila>
  {
    Limpiar(Renumerada(plantilla, index))
  }

  /**
   * The appended row: as many fields as the template, every name, id and label renumbered to
   * `index`, and the five queries reading '', '1', '0.00', '0.00' and unchecked.
   */
  lemma ClonSpec(plantilla: Fila, index: nat)
    requires Clon(plantilla, index).Some?
    ensures var g := Clon(plantilla, index).value;
      && |g.campos| == |plantilla.campos| && |g.etiquetas| == |plantilla.etiquetas|
      && (forall k :: 0 <= k < |g.campos| ==> Reindexado(plantilla.campos[k].name, g.campos[k].name, "form-", index))
      && (forall k :: 0 <= k < |g.campos| ==> Reindexado(plantilla.campos[k].id, g.campos[k].id, "id_form-", index))
      && (forall k :: 0 <= k < |g.etiquetas| ==> Reindexado(plantilla.etiquetas[k], g.etiquetas[k], "id_form-", index))
      && ValorDe(g, PRODUCTO) == Some("") && ValorDe(g, CANTIDAD) == Some("1")
      && ValorDe(g, PRECIO) == Some("0.00") && ValorDe(g, SUBTOTAL) == Some("0.00")
      && MarcadoDe(g, DELETE) == Some(false)
  {
    var r := Renumerada(plantilla, index);
    RenumeradaSpec(plantilla, index);
    LimpiarSpec(r);
  }

  // ---------------------------------------------------------------------------------------
  // Subtotals

  /** `(parseFloat(cantidad) || 0) * (parseFloat(precio) || 0)`, exactly. */
  function Importe(cantidad: string, precio: string): Decimal
  {
    Producto(Numero(cantidad), Numero(precio))
  }

  /**
   * One row of `calcularSubtotales`: the subtotal field gets `subtotal.toFixed(2)`. A query
   * that finds nothing throws a TypeError.
   */
  function Recalcular(f: Fila): Option<Fila>
  {
    var cs := f.campos;
    match (Buscar(cs, CANTIDAD, 0), Buscar(cs, PRECIO, 0), Buscar(cs, SUBTOTAL, 0))
    case (Some(a), Some(b), Some(c)) =>
      Some(f.(campos := cs[c := cs[c].(value := Fixed2(Importe(cs[a].value, cs[b].value)))]))
    case _ => None
  }

  /** The row has the three fields the subtotal reads and writes. */
  predicate CamposDeImporte(f: Fila)
  {
    Buscar(f.campos, CANTIDAD, 0).Some? && Buscar(f.campos, PRECIO, 0).Some? && Buscar(f.campos, SUBTOTAL, 0).Some?
  }

  /** With the three fields at `a`, `b` and `c`: only the subtotal field `c` changes, and only its value. */
  lemma RecalcularEn(f: Fila, a: nat, b: nat, c: nat)
    requires Buscar(f.campos, CANTIDAD, 0) == Some(a) && Buscar(f.campos, PRECIO, 0) == Some(b)
    requires Buscar(f.campos, SUBTOTAL, 0) == Some(c)
    ensures a != c && b != c && Recalcular(f).Some?
    ensures var g := Recalcular(f).value;
      && g.etiquetas == f.etiquetas && |g.campos| == |f.campos|
      && g.campos[c] == f.campos[c].(value := Fixed2(Importe(f.campos[a].value, f.campos[b].value)))
      && forall k :: 0 <= k < |f.campos| && k != c ==> g.campos[k] == f.campos[k]
  {
    CincoSufijos(f.campos[c].id);
  }

  /**
   * The recomputation fails exactly when one of the three fields is missing. Otherwise it keeps
   * every name and id and the labels, the quantity and price read as before, and the subtotal
   * reads back as their exact product rounded to hundredths.
   */
  lemma RecalcularSpec(f: Fila)
    ensures Recalcular(f).Some? <==> CamposDeImporte(f)
    ensures Recalcular(f).Some? ==> var g := Recalcular(f).value;
      && g.etiquetas == f.etiquetas && MismosIds(g.campos, f.campos)
      && (forall k :: 0 <= k < |f.campos| ==> g.campos[k].name == f.campos[k].name)
      && ValorDe(g, CANTIDAD) == ValorDe(f, CANTIDAD) && ValorDe(g, PRECIO) == ValorDe(f, PRECIO)
      && ValorDe(g, SUBTOTAL).Some?
      && ParseFloat(ValorDe(g, SUBTOTAL).value)
           == Some(Quantize(Importe(ValorDe(f, CANTIDAD).value, ValorDe(f, PRECIO).value), -2))
  {
    if CamposDeImporte(f) {
      var cs := f.campos;
      var a, b, c := Buscar(cs, CANTIDAD, 0).value, Buscar(cs, PRECIO, 0).value, Buscar(cs, SUBTOTAL, 0).value;
      RecalcularEn(f, a, b, c);
      var g := Recalcular(f).value;
      assert MismosIds(g.campos, cs);
      BuscarIds(g.campos, cs, CANTIDAD, 0);
      BuscarIds(g.campos, cs, PRECIO, 0);
      BuscarIds(g.campos, cs, SUBTOTAL, 0);
      ParseFloatFixed2(Importe(cs[a].value, cs[b].value));
    }
  }

  /** Recomputing a recomputed row changes nothing: the subtotal is not an input of itself. */
  lemma RecalcularIdempotente(f: Fila)
    requires Recalcular(f).Some?
    ensures Recalcular(Recalcular(f).value) == Recalcular(f)
  {
    var cs := f.campos;
    var a, b, c := Buscar(cs, CANTIDAD, 0).value, Buscar(cs, PRECIO, 0).value, Buscar(cs, SUBTOTAL, 0).value;
    RecalcularEn(f, a, b, c);
    var g := Recalcular(f).value;
    assert MismosIds(g.campos, cs);
    BuscarIds(g.campos, cs, CANTIDAD, 0);
    BuscarIds(g.campos, cs, PRECIO, 0);
    BuscarIds(g.campos, cs, SUBTOTAL, 0);
    RecalcularEn(g, a, b, c);
    assert Recalcular(g).value.campos == g.campos;
  }

  /**
   * `calcularSubtotales()` over the rows in order: each row is recomputed until one lacks a
   * field, where the TypeError stops the loop and that row and the rest stay as they were.
   */
  function Subtotales(fs: seq<Fila>): (r: seq<Fila>)
    ensures |r| == |fs|
  {
    Aplicar(fs, Recalculos(fs))
  }

  /**
   * The rows with each replaced by its recomputation `rs[i]` while those succeed; from the
   * first that fails on, the rows as they were.
   */
  function Aplicar(fs: seq<Fila>, rs: seq<Option<Fila>>): (r: seq<Fila>)
    requires |rs| == |fs|
    ensures |r| == |fs|
  {
    if fs == [] then []
    else match rs[0]
      case None => fs
      case Some(g) => [g] + Aplicar(fs[1..], rs[1..])
  }

  /** Every row has the fields of a subtotal: the loop runs to the end. */
  predicate Completas(fs: seq<Fila>)
  {
    forall i :: 0 <= i < |fs| ==> Recalcular(fs[i]).Some?
  }

  /** The recomputation of every row on its own, in order. */
  function Recalculos(fs: seq<Fila>): (r: seq<Option<Fila>>)
    ensures |r| == |fs|
  {
    if fs == [] then [] else [Recalcular(fs[0])] + Recalculos(fs[1..])
  }

  lemma {:induction false} RecalculoEn(fs: seq<Fila>, i: nat)
    requires i < |fs|
    ensures Recalculos(fs)[i] == Recalcular(fs[i])
  {
    var rs := Recalculos(fs);
    assert rs == [Recalcular(fs[0])] + Recalculos(fs[1..]);
    if i > 0 {
      RecalculoEn(fs[1..], i - 1);
      assert fs[1..][i - 1] == fs[i];
    }
  }

  /** Every row has its fields exactly when every recomputation succeeds. */
  lemma CompletasRecalculos(fs: seq<Fila>)
    ensures Completas(fs) ==> forall i :: 0 <= i < |fs| ==> Recalculos(fs)[i].Some?
    ensures (forall i :: 0 <= i < |fs| ==> Recalculos(fs)[i].Some?) ==> Completas(fs)
  {
    forall i | 0 <= i < |fs| ensures Recalculos(fs)[i] == Recalcular(fs[i]) {
      RecalculoEn(fs, i);
    }
  }

  /**
   * The pass after `n` rows: the first `n` recomputations succeeded and were written in place,
   * and the rows from `n` on are as they were.
   */
  ghost predicate Hechas(fs: seq<Fila>, rs: seq<Option<Fila>>, n: nat, filas: seq<Fila>)
  {
    && |rs| == |fs| == |filas| && n <= |fs|
    && (forall k :: 0 <= k < n ==> rs[k].Some? && filas[k] == rs[k].value)
    && (forall k :: n <= k < |fs| ==> filas[k] == fs[k])
  }

  /** Writing a successful recomputation `n` in place moves the pass on by one row. */
  lemma Escribir(fs: seq<Fila>, rs: seq<Option<Fila>>, n: nat, filas: seq<Fila>, g: Fila)
    requires Hechas(fs, rs, n, filas) && n < |fs| && rs[n] == Some(g)
    ensures Hechas(fs, rs, n + 1, filas[n := g])
  {
  }

  /**
   * Once recomputation `n` fails or no row is left, the rows of the pass so far are what the
   * whole pass produces.
   */
  lemma {:induction false} AplicarHasta(fs: seq<Fila>, rs: seq<Option<Fila>>, n: nat, filas: seq<Fila>)
    requires Hechas(fs, rs, n, filas) && (n < |fs| ==> rs[n].None?)
    ensures Aplicar(fs, rs) == filas
    decreases n
  {
    if n > 0 {
      AplicarHasta(fs[1..], rs[1..], n - 1, filas[1..]);
      assert filas == [filas[0]] + filas[1..];
    } else if fs != [] {
      assert filas == fs;
    }
  }

  /** The pass recomputes the first row and goes on with the rest, or stops at it. */
  lemma SubtotalesCons(fs: seq<Fila>)
    requires fs != []
    ensures Subtotales(fs) == match Recalcular(fs[0])
      case None => fs
      case Some(g) => [g] + Subtotales(fs[1..])
  {
    assert Recalculos(fs) == [Recalcular(fs[0])] + Recalculos(fs[1..]);
    assert Recalculos(fs)[1..] == Recalculos(fs[1..]);
  }

  /** Recomputing the subtotals a second time changes nothing. */
  lemma {:induction false} SubtotalesIdempotente(fs: seq<Fila>)
    ensures Subtotales(Subtotales(fs)) == Subtotales(fs)
  {
    if fs != [] {
      SubtotalesCons(fs);
      match Recalcular(fs[0])
      case None =>
      case Some(g) =>
        RecalcularIdempotente(fs[0]);
        SubtotalesIdempotente(fs[1..]);
        var r := [g] + Subtotales(fs[1..]);
        assert r[0] == g && r[1..] == Subtotales(fs[1..]);
        SubtotalesCons(r);
    }
  }

  /** `s.includes(sub)`. */
  predicate Contiene(s: string, sub: string)
    decreases |s|
  {
    |sub| <= |s| && (s[..|sub|] == sub || Contiene(s[1..], sub))
  }

  /** A name that ends with the word mentions it: `form-3-cantidad` sets off the recomputation. */
  lemma {:induction false} ContieneAlFinal(p: string, sub: string)
    ensures Contiene(p + sub, sub)
    decreases |p|
  {
    if p != [] && (p + sub)[..|sub|] != sub {
      assert (p + sub)[1..] == p[1..] + sub;
      ContieneAlFinal(p[1..], sub);
    }
  }

  /** The input listener's filter: the changed field's name mentions the quantity or the price. */
  predicate DisparaCalculo(name: string)
  {
    Contiene(name, "cantidad") || Contiene(name, "precio_unitario")
  }

  // ---------------------------------------------------------------------------------------
  // The formset on the page

  /**
   * The script's state: its `formCount` counter, the value of the TOTAL_FORMS input, and the
   * `.detalle-form` rows of the table body in document order.
   */
  class Formset {
    var formCount: nat
    var totalForms: string
    var filas: seq<Fila>

    /**
     * The DOMContentLoaded handler: the counter starts at the management form's total, and
     * the subtotals are computed once.
     */
    constructor(total: nat, iniciales: seq<Fila>)
      ensures formCount == total && totalForms == NatToString(total)
      ensures filas == Subtotales(iniciales)
      ensures Sincronizado()
    {
      formCount := total;
      totalForms := NatToString(total);
      filas := iniciales;
      new;
      var _ := CalcularSubtotales();
    }

    /** The counter and the TOTAL_FORMS input agree. */
    predicate Sincronizado()
      reads this
    {
      totalForms == NatToString(formCount)
    }

    /**
     * `calcularSubtotales()`: the forEach over the rows, writing each subtotal in place. The
     * result says whether the loop ran to the end or stopped at a row that lacks a field.
     */
    method CalcularSubtotales() returns (completa: bool)
      modifies this
      ensures filas == Subtotales(old(filas))
      ensures completa ==> Completas(old(filas))
      ensures !completa ==> !Completas(old(filas))
      ensures formCount == old(formCount) && totalForms == old(totalForms)
    {
      filas, completa := PasarFilas(filas);
    }

    /** The loop of `calcularSubtotales()` over the rows, each written back in its place. */
    static method PasarFilas(fs: seq<Fila>) returns (filas: seq<Fila>, completa: bool)
      ensures filas == Subtotales(fs)
      ensures completa ==> Completas(fs)
      ensures !completa ==> !Completas(fs)
    {
      ghost var rs := Recalculos(fs);
      filas := fs;
      var i := 0;
      while i < |filas|
        invariant Hechas(fs, rs, i, filas)
      {
        var nueva := RecalcularFila(filas, fs, i);
        if nueva.None? {
          AplicarHasta(fs, rs, i, filas);
          CompletasRecalculos(fs);
          return filas, false;
        }
        Escribir(fs, rs, i, filas, nueva.value);
        filas := filas[i := nueva.value];
        i := i + 1;
      }
      AplicarHasta(fs, rs, i, filas);
      CompletasRecalculos(fs);
      completa := true;
    }

    /** Row `i` recomputed, as the loop does it at its turn: the same as recomputing the original row. */
    static method RecalcularFila(filas: seq<Fila>, ghost fs: seq<Fila>, i: nat) returns (r: Option<Fila>)
      requires i < |fs| == |filas| && filas[i] == fs[i]
      ensures r == Recalculos(fs)[i]
    {
      r := Recalcular(filas[i]);
      RecalculoEn(fs, i);
    }

    /**
     * `cloneRow()`: nothing without a first row. Otherwise the counter goes up by one, the
     * first row is copied, renumbered to the old count and reset, then appended after every
     * existing row, and TOTAL_FORMS takes the new count. When the reset throws, the counter
     * has already gone up but nothing is appended and TOTAL_FORMS keeps its value.
     */
    method CloneRow() returns (error: bool)
      modifies this
      ensures old(filas) == [] ==>
        !error && filas == old(filas) && formCount == old(formCount) && totalForms == old(totalForms)
      ensures old(filas) != [] ==> formCount == old(formCount) + 1
      ensures old(filas) != [] ==> match Clon(old(filas)[0], old(formCount))
        case None => error && filas == old(filas) && totalForms == old(totalForms)
        case Some(g) => !error && filas == old(filas) + [g] && totalForms == NatToString(formCount)
      ensures !error && old(Sincronizado()) ==> Sincronizado()
      ensures old(filas) != [] && !error ==> Sincronizado()
      ensures error && old(Sincronizado()) ==> !Sincronizado()
    {
      if filas == [] {
        return false;
      }
      var plantilla, index := filas[0], formCount;
      formCount := formCount + 1;
      var nueva := UpdateFormIndexes(plantilla, formCount - 1);
      var limpia := LimpiarFila(nueva);
      assert limpia == Clon(plantilla, index);
      if limpia.None? {
        NatToStringValue(index);
        NatToStringValue(formCount);
        return true;
      }
      var g := limpia.value;
      filas := filas + [g];
      totalForms := NatToString(formCount);
      error := false;
    }

    /** The five assignments to the clone's fields, each after its own query. */
    static method LimpiarFila(f: Fila) returns (r: Option<Fila>)
      ensures r == Limpiar(f)
    {
      var cs := f.campos;
      var a := Buscar(cs, PRODUCTO, 0);
      if a.None? { return None; }
      cs := cs[a.value := cs[a.value].(value := "")];
      BuscarIds(cs, f.campos, CANTIDAD, 0);
      var b := Buscar(cs, CANTIDAD, 0);
      if b.None? { return None; }
      cs := cs[b.value := cs[b.value].(value := "1")];
      BuscarIds(cs, f.campos, PRECIO, 0);
      var c := Buscar(cs, PRECIO, 0);
      if c.None? { return None; }
      cs := cs[c.value := cs[c.value].(value := "0.00")];
      BuscarIds(cs, f.campos, SUBTOTAL, 0);
      var d := Buscar(cs, SUBTOTAL, 0);
      if d.None? { return None; }
      cs := cs[d.value := cs[d.value].(value := "0.00")];
      BuscarIds(cs, f.campos, DELETE, 0);
      var e := Buscar(cs, DELETE, 0);
      if e.None? { return None; }
      cs := cs[e.value := cs[e.value].(checked := false)];
      CincoDistintos(f, a.value, b.value, c.value, d.value, e.value);
      r := Some(f.(campos := cs));
    }

    /** The `input` listener of the table body. */
    method OnInput(name: string)
      modifies this
      ensures DisparaCalculo(name) ==> filas == Subtotales(old(filas))
      ensures !DisparaCalculo(name) ==> filas == old(filas)
      ensures formCount == old(formCount) && totalForms == old(totalForms)
    {
      if DisparaCalculo(name) {
        var _ := CalcularSubtotales();
      }
    }
  }
}
