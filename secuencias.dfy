/**
 * Document numbering (empresa/models.py): every expedition point (PuntoExpedicion) of a
 * branch (Sucursal) owns one SecuenciaDocumento per document type, whose counter hands out
 * numbers formatted `<sucursal>-<punto>-<numero:07d>`.
 */
module Secuencias {
  import opened Base
  import opened PyText

  datatype TipoDocumento = Factura | Ticket | NotaCredito | NotaDebito

  /** The types `crear_secuencias_iniciales` walks, in its order. */
  const TIPOS: seq<TipoDocumento> := [Factura, Ticket, NotaCredito, NotaDebito]

  /** A PuntoExpedicion with the code of its Sucursal. */
  datatype PuntoExpedicion = PuntoExpedicion(id: nat, sucursalCodigo: string, codigo: string)

  /** `get_codigo_completo`: `<sucursal>-<punto>`. */
  function CodigoCompleto(p: PuntoExpedicion): string
  {
    p.sucursalCodigo + "-" + p.codigo
  }

  /** With no '-' in branch codes, the full code determines both codes. */
  lemma CodigoCompletoInyectivo(p: PuntoExpedicion, q: PuntoExpedicion)
    requires '-' !in p.sucursalCodigo && '-' !in q.sucursalCodigo
    requires CodigoCompleto(p) == CodigoCompleto(q)
    ensures p.sucursalCodigo == q.sucursalCodigo && p.codigo == q.codigo
  {
    var r := CodigoCompleto(p);
    var a, b := |p.sucursalCodigo|, |q.sucursalCodigo|;
    assert r[a] == '-' && CodigoCompleto(q)[b] == '-';
    assert p.sucursalCodigo == r[..a] == q.sucursalCodigo;
    assert p.codigo == r[a + 1..] == q.codigo;
  }

  /** The fixed format string of every sequence. */
  const FORMATO: string := "{sucursal}-{punto}-{numero:07d}"

  /** `FORMATO.format(sucursal=..., punto=..., numero=n)`. */
  function Numero(p: PuntoExpedicion, n: nat): string
  {
    p.sucursalCodigo + "-" + p.codigo + "-" + ZeroPad(n, 7)
  }

  /**
   * A generated number is the full code, a '-', and at least seven digits that denote `n`;
   * so distinct counters give distinct numbers.
   */
  lemma NumeroSpec(p: PuntoExpedicion, n: nat, m: nat)
    ensures var r, pre := Numero(p, n), CodigoCompleto(p) + "-";
      && |pre| + 7 <= |r| && r[..|pre|] == pre
      && AllDigits(r[|pre|..]) && DigitsValue(r[|pre|..]) == n
    ensures Numero(p, n) == Numero(p, m) ==> n == m
  {
    var r, pre := Numero(p, n), CodigoCompleto(p) + "-";
    assert r == pre + ZeroPad(n, 7);
    assert r[|pre|..] == ZeroPad(n, 7);
    ZeroPadShape(n, 7);
    if Numero(p, n) == Numero(p, m) {
      assert Numero(p, m) == pre + ZeroPad(m, 7);
      assert ZeroPad(n, 7) == Numero(p, n)[|pre|..] == ZeroPad(m, 7);
      ZeroPadInjective(n, m, 7);
    }
  }

  datatype ClaveSecuencia = ClaveSecuencia(punto: nat, tipo: TipoDocumento)

  /** A SecuenciaDocumento row (its punto and tipo are its key). */
  datatype Secuencia = Secuencia(prefijo: string, siguienteNumero: nat, formato: string, activo: bool)

  /** What `SecuenciaDocumento.save` stores: an empty prefijo or formato is filled in. */
  function Completada(s: Secuencia, p: PuntoExpedicion): Secuencia
  {
    s.(prefijo := if s.prefijo == "" then CodigoCompleto(p) else s.prefijo,
       formato := if s.formato == "" then FORMATO else s.formato)
  }

  /**
   * Saving keeps a non-empty prefijo or formato and fills an empty one; the counter and the
   * flag are untouched, and saving twice is saving once.
   */
  lemma CompletadaSpec(s: Secuencia, p: PuntoExpedicion)
    ensures var r := Completada(s, p);
      && (s.prefijo != "" ==> r.prefijo == s.prefijo) && (s.prefijo == "" ==> r.prefijo == CodigoCompleto(p))
      && (s.formato != "" ==> r.formato == s.formato) && (s.formato == "" ==> r.formato == FORMATO)
      && r.siguienteNumero == s.siguienteNumero && r.activo == s.activo
      && r.prefijo != "" && r.formato != ""
      && Completada(r, p) == r
  {
    assert |CodigoCompleto(p)| >= 1;
  }

  /** The row `crear_secuencias_iniciales` creates: counter 1, the fixed format, the filled prefijo. */
  function Nueva(p: PuntoExpedicion): Secuencia
  {
    Completada(Secuencia("", 1, FORMATO, true), p)
  }

  /**
   * `crear_secuencias_iniciales` after the first `n` types: each has its row, the rows there
   * before are untouched, and every row added is a new row of point `p`.
   */
  ghost predicate Creadas(viejas: map<ClaveSecuencia, Secuencia>, filas: map<ClaveSecuencia, Secuencia>,
                          p: PuntoExpedicion, n: nat)
  {
    && n <= |TIPOS|
    && (forall j :: 0 <= j < n ==> ClaveSecuencia(p.id, TIPOS[j]) in filas)
    && (forall k :: k in viejas ==> k in filas && filas[k] == viejas[k])
    && (forall k :: k in filas && k !in viejas ==> k.punto == p.id && filas[k] == Nueva(p))
  }

  /** `get_or_create` of type `n`: an existing row is kept, a missing one is created new. */
  lemma CrearPaso(viejas: map<ClaveSecuencia, Secuencia>, antes: map<ClaveSecuencia, Secuencia>,
                  despues: map<ClaveSecuencia, Secuencia>, p: PuntoExpedicion, n: nat)
    requires Creadas(viejas, antes, p, n) && n < |TIPOS|
    requires var k := ClaveSecuencia(p.id, TIPOS[n]);
      despues == if k in antes then antes else antes[k := Nueva(p)]
    ensures Creadas(viejas, despues, p, n + 1)
  {
  }

  /** The SecuenciaDocumento table. */
  class TablaSecuencias {
    var filas: map<ClaveSecuencia, Secuencia>

    /**
     * Rows only reach the table through `save`, which fills the prefijo, and with the fixed
     * format (`formato` is not editable).
     */
    ghost predicate Valid()
      reads this
    {
      forall k :: k in filas ==> filas[k].formato == FORMATO && filas[k].prefijo != ""
    }

    constructor ()
      ensures Valid() && filas == map[]
    {
      filas := map[];
    }

    /** `SecuenciaDocumento.save` of `s` as the row of point `p` and type `tipo`. */
    method Guardar(p: PuntoExpedicion, tipo: TipoDocumento, s: Secuencia)
      requires Valid() && (s.formato == FORMATO || s.formato == "")
      modifies this
      ensures Valid() && filas == old(filas)[ClaveSecuencia(p.id, tipo) := Completada(s, p)]
    {
      filas := filas[ClaveSecuencia(p.id, tipo) := Completada(s, p)];
    }

    /**
     * `generar_numero` on the row of point `p` and type `tipo`: the number formatted is the
     * counter before the call, and the counter goes up by exactly one.
     */
    method GenerarNumero(p: PuntoExpedicion, tipo: TipoDocumento) returns (r: string)
      requires Valid() && ClaveSecuencia(p.id, tipo) in filas
      modifies this
      ensures Valid()
      ensures var k := ClaveSecuencia(p.id, tipo);
        && r == Numero(p, old(filas)[k].siguienteNumero)
        && filas == old(filas)[k := old(filas)[k].(siguienteNumero := old(filas)[k].siguienteNumero + 1)]
    {
      var k := ClaveSecuencia(p.id, tipo);
      var fila := filas[k];
      var numero := fila.siguienteNumero;
      CompletadaSpec(fila, p);
      Guardar(p, tipo, fila.(siguienteNumero := numero + 1));
      assert filas[k].formato == FORMATO;
      r := Numero(p, numero);
    }

    /**
     * `crear_secuencias_iniciales` for point `p`: `get_or_create` of one row per type. Rows
     * that exist are untouched, missing ones are created as `Nueva(p)`; nothing else changes.
     * Returns the point's rows (`self.secuencias.all()`), one per document type.
     */
    method CrearSecuenciasIniciales(p: PuntoExpedicion) returns (r: map<ClaveSecuencia, Secuencia>)
      requires Valid()
      modifies this
      ensures Valid()
      ensures forall t :: ClaveSecuencia(p.id, t) in filas
      ensures forall k :: k in old(filas) ==> k in filas && filas[k] == old(filas)[k]
      ensures forall k :: k in filas && k !in old(filas) ==> k.punto == p.id && filas[k] == Nueva(p)
      ensures (forall t :: ClaveSecuencia(p.id, t) in old(filas)) ==> filas == old(filas)
      ensures r.Keys == {ClaveSecuencia(p.id, Factura), ClaveSecuencia(p.id, Ticket),
                         ClaveSecuencia(p.id, NotaCredito), ClaveSecuencia(p.id, NotaDebito)}
      ensures forall k :: k in r ==> k in filas && r[k] == filas[k]
    {
      var i := 0;
      while i < |TIPOS|
        invariant Valid() && Creadas(old(filas), filas, p, i)
      {
        var k := ClaveSecuencia(p.id, TIPOS[i]);
        ghost var antes := filas;
        if k !in filas {
          Guardar(p, TIPOS[i], Secuencia("", 1, FORMATO, true));
        }
        CrearPaso(old(filas), antes, filas, p, i);
        i := i + 1;
      }
      forall t: TipoDocumento ensures ClaveSecuencia(p.id, t) in filas {
        assert t == TIPOS[0] || t == TIPOS[1] || t == TIPOS[2] || t == TIPOS[3];
      }
      if forall t :: ClaveSecuencia(p.id, t) in old(filas) {
        assert filas.Keys == old(filas).Keys;
      }
      r := map k | k in filas && k.punto == p.id :: filas[k];
      forall k | k in r ensures k == ClaveSecuencia(p.id, k.tipo) && k.tipo in TIPOS {
        assert k.tipo == TIPOS[0] || k.tipo == TIPOS[1] || k.tipo == TIPOS[2] || k.tipo == TIPOS[3];
      }
    }
  }

  /** Two successive calls hand out consecutive counters, hence distinct, increasing numbers. */
  method GenerarDosVeces(tabla: TablaSecuencias, p: PuntoExpedicion, tipo: TipoDocumento) returns (a: string, b: string)
    requires tabla.Valid() && ClaveSecuencia(p.id, tipo) in tabla.filas
    modifies tabla
    ensures var n := old(tabla.filas)[ClaveSecuencia(p.id, tipo)].siguienteNumero;
      a == Numero(p, n) && b == Numero(p, n + 1) && a != b
    ensures ClaveSecuencia(p.id, tipo) in tabla.filas
    ensures tabla.filas[ClaveSecuencia(p.id, tipo)].siguienteNumero
      == old(tabla.filas)[ClaveSecuencia(p.id, tipo)].siguienteNumero + 2
  {
    a := tabla.GenerarNumero(p, tipo);
    b := tabla.GenerarNumero(p, tipo);
    NumeroSpec(p, old(tabla.filas)[ClaveSecuencia(p.id, tipo)].siguienteNumero,
               old(tabla.filas)[ClaveSecuencia(p.id, tipo)].siguienteNumero + 1);
  }
}
