/**
 * Product conversions as the almacen views run them (`ejecutar_conversion`,
 * `revertir_conversion_view` in almacen/views.py): a ConversionProducto has ORIGEN components,
 * consumed per execution, and DESTINO components, produced per execution; every execution is
 * recorded in RegistroConversion, and a reversal marks the original and records a linked one.
 */
module Conversiones {
  import opened Base
  import opened PyText
  import opened Inventario

  type ConversionId = nat

  datatype TipoComponente = Origen | Destino

  /** A ComponenteConversion row of one conversion. */
  datatype Componente = Componente(producto: ProductoId, tipo: TipoComponente, cantidad: nat)

  /** A RegistroConversion row; its id is its position in the table plus one. */
  datatype RegistroConversion = RegistroConversion(
    conversion: ConversionId,
    almacen: AlmacenId,
    cantidadEjecuciones: nat,
    usuario: UsuarioId,
    motivo: string,
    revertido: bool,
    relacionReversion: Option<nat>)

  /** `conversion.componentes.filter(tipo=t)`, in table order. */
  function DeTipo(cs: seq<Componente>, t: TipoComponente): seq<Componente>
  {
    if cs == [] then []
    else DeTipo(cs[..|cs| - 1], t) + (if cs[|cs| - 1].tipo == t then [cs[|cs| - 1]] else [])
  }

  /** The filter keeps exactly the components of type `t`. */
  lemma {:induction false} DeTipoMembers(cs: seq<Componente>, t: TipoComponente)
    ensures forall c :: c in DeTipo(cs, t) <==> c in cs && c.tipo == t
  {
    if cs != [] {
      DeTipoMembers(cs[..|cs| - 1], t);
      assert cs == cs[..|cs| - 1] + [cs[|cs| - 1]];
    }
  }

  function ClaveDe(c: Componente, almacen: AlmacenId): StockKey
  {
    StockKey(c.producto, almacen)
  }

  /** The stock rows of `almacen` that the components touch. */
  function Claves(cs: seq<Componente>, almacen: AlmacenId): set<StockKey>
  {
    set i | 0 <= i < |cs| :: ClaveDe(cs[i], almacen)
  }

  /** The sum of the quantities of the components whose row in `almacen` is `k`. */
  function Demanda(cs: seq<Componente>, k: StockKey, almacen: AlmacenId): nat
  {
    if cs == [] then 0
    else
      var c := cs[|cs| - 1];
      Demanda(cs[..|cs| - 1], k, almacen) + (if ClaveDe(c, almacen) == k then c.cantidad else 0)
  }

  /**
   * One write per component, in order: fetch or create (at 0) its row in `almacen` and add
   * `componente.cantidad * factor`.
   */
  function Aplicar(s: StockMap, cs: seq<Componente>, almacen: AlmacenId, factor: int): StockMap
  {
    if cs == [] then s
    else
      var m, k := Aplicar(s, cs[..|cs| - 1], almacen, factor), ClaveDe(cs[|cs| - 1], almacen);
      m[k := Cantidad(m, k) + cs[|cs| - 1].cantidad * factor]
  }

  /** The writes add rows only for the components' keys. */
  lemma {:induction false} AplicarKeys(s: StockMap, cs: seq<Componente>, almacen: AlmacenId, factor: int)
    ensures Aplicar(s, cs, almacen, factor).Keys == s.Keys + Claves(cs, almacen)
  {
    if cs != [] {
      var prefix := cs[..|cs| - 1];
      var c := cs[|cs| - 1];
      AplicarKeys(s, prefix, almacen, factor);
      assert Claves(cs, almacen) == Claves(prefix, almacen) + {ClaveDe(c, almacen)} by {
        forall k | k in Claves(cs, almacen) ensures k in Claves(prefix, almacen) + {ClaveDe(c, almacen)} {
          var i :| 0 <= i < |cs| && k == ClaveDe(cs[i], almacen);
          if i < |prefix| {
            assert cs[i] == prefix[i];
          }
        }
        forall k | k in Claves(prefix, almacen) ensures k in Claves(cs, almacen) {
          var i :| 0 <= i < |prefix| && k == ClaveDe(prefix[i], almacen);
          assert prefix[i] == cs[i];
        }
      }
    }
  }

  /** Each row moves by factor times the total demand the components put on it. */
  lemma {:induction false} AplicarAt(s: StockMap, cs: seq<Componente>, almacen: AlmacenId, factor: int, k: StockKey)
    ensures Cantidad(Aplicar(s, cs, almacen, factor), k) == Cantidad(s, k) + factor * Demanda(cs, k, almacen)
  {
    if cs != [] {
      var prefix := cs[..|cs| - 1];
      var c := cs[|cs| - 1];
      AplicarAt(s, prefix, almacen, factor, k);
      var d := Demanda(prefix, k, almacen);
      var e := if ClaveDe(c, almacen) == k then c.cantidad else 0;
      assert Demanda(cs, k, almacen) == d + e;
      assert factor * (d + e) == factor * d + factor * e;
    }
  }

  /** With distinct products, a component's row is charged exactly its own quantity. */
  lemma {:induction false} DemandaUnica(cs: seq<Componente>, i: nat, almacen: AlmacenId)
    requires i < |cs|
    requires forall a, b :: 0 <= a < b < |cs| ==> cs[a].producto != cs[b].producto
    ensures Demanda(cs, ClaveDe(cs[i], almacen), almacen) == cs[i].cantidad
  {
    var prefix := cs[..|cs| - 1];
    if i == |cs| - 1 {
      DemandaAusente(prefix, ClaveDe(cs[i], almacen), almacen);
    } else {
      assert prefix[i] == cs[i];
      DemandaUnica(prefix, i, almacen);
    }
  }

  lemma {:induction false} DemandaAusente(cs: seq<Componente>, k: StockKey, almacen: AlmacenId)
    requires forall j :: 0 <= j < |cs| ==> ClaveDe(cs[j], almacen) != k
    ensures Demanda(cs, k, almacen) == 0
  {
    if cs != [] {
      DemandaAusente(cs[..|cs| - 1], k, almacen);
    }
  }

  /** A component whose row in `almacen` exists and covers `cantidad` executions. */
  predicate Cubierto(s: StockMap, c: Componente, almacen: AlmacenId, cantidad: nat)
  {
    ClaveDe(c, almacen) in s && s[ClaveDe(c, almacen)] >= c.cantidad * cantidad
  }

  predicate Suficiente(s: StockMap, origenes: seq<Componente>, almacen: AlmacenId, cantidad: nat)
  {
    forall i :: 0 <= i < |origenes| ==> Cubierto(s, origenes[i], almacen, cantidad)
  }

  /** The stock after a successful `ejecutar_conversion`: origins consumed, then destinations produced. */
  function Ejecutado(s: StockMap, cs: seq<Componente>, almacen: AlmacenId, cantidad: nat): StockMap
  {
    Aplicar(Aplicar(s, DeTipo(cs, Origen), almacen, -(cantidad as int)), DeTipo(cs, Destino), almacen, cantidad)
  }

  lemma Opuesto(c: nat, a: int)
    ensures -(c as int) * a == -(c * a)
  {
  }

  /** Each row moves by cantidad times (what the destinations produce minus what the origins use). */
  lemma EjecutadoPorClave(s: StockMap, cs: seq<Componente>, almacen: AlmacenId, cantidad: nat, k: StockKey)
    ensures Cantidad(Ejecutado(s, cs, almacen, cantidad), k)
      == Cantidad(s, k) - cantidad * Demanda(DeTipo(cs, Origen), k, almacen) + cantidad * Demanda(DeTipo(cs, Destino), k, almacen)
  {
    var origenes, destinos := DeTipo(cs, Origen), DeTipo(cs, Destino);
    var f := -(cantidad as int);
    var o := Aplicar(s, origenes, almacen, f);
    assert Ejecutado(s, cs, almacen, cantidad) == Aplicar(o, destinos, almacen, cantidad);
    var a, b := Demanda(origenes, k, almacen), Demanda(destinos, k, almacen);
    Opuesto(cantidad, a);
    AplicarAt(s, origenes, almacen, f, k);
    assert Cantidad(o, k) == Cantidad(s, k) - cantidad * a;
    AplicarAt(o, destinos, almacen, cantidad, k);
  }

  lemma EjecutadoKeys(s: StockMap, cs: seq<Componente>, almacen: AlmacenId, cantidad: nat)
    ensures Ejecutado(s, cs, almacen, cantidad).Keys == s.Keys + Claves(DeTipo(cs, Origen), almacen) + Claves(DeTipo(cs, Destino), almacen)
  {
    var origenes, destinos := DeTipo(cs, Origen), DeTipo(cs, Destino);
    var f := -(cantidad as int);
    DosPasosKeys(s, origenes, destinos, almacen, f, cantidad);
    assert Ejecutado(s, cs, almacen, cantidad) == Aplicar(Aplicar(s, origenes, almacen, f), destinos, almacen, cantidad);
  }

  /** Two rounds of writes add the rows of both component lists. */
  lemma DosPasosKeys(s: StockMap, o: seq<Componente>, d: seq<Componente>, almacen: AlmacenId, f1: int, f2: int)
    ensures Aplicar(Aplicar(s, o, almacen, f1), d, almacen, f2).Keys == s.Keys + Claves(o, almacen) + Claves(d, almacen)
  {
    var e := Aplicar(s, o, almacen, f1);
    AplicarKeys(s, o, almacen, f1);
    AplicarKeys(e, d, almacen, f2);
  }

  /**
   * `ejecutar_conversion` with distinct products per type: an origin row drops by its
   * component's quantity times `cantidad`, and a row the destinations do not touch keeps the rest.
   */
  lemma EjecutadoOrigen(s: StockMap, cs: seq<Componente>, almacen: AlmacenId, cantidad: nat, i: nat)
    requires var o := DeTipo(cs, Origen); i < |o| && forall a, b :: 0 <= a < b < |o| ==> o[a].producto != o[b].producto
    requires forall j :: 0 <= j < |DeTipo(cs, Destino)| ==> DeTipo(cs, Destino)[j].producto != DeTipo(cs, Origen)[i].producto
    ensures var k := ClaveDe(DeTipo(cs, Origen)[i], almacen);
      Cantidad(Ejecutado(s, cs, almacen, cantidad), k) == Cantidad(s, k) - DeTipo(cs, Origen)[i].cantidad * cantidad
  {
    var o, d := DeTipo(cs, Origen), DeTipo(cs, Destino);
    var k := ClaveDe(o[i], almacen);
    EjecutadoPorClave(s, cs, almacen, cantidad, k);
    DemandaUnica(o, i, almacen);
    DemandaAusente(d, k, almacen);
    assert cantidad * Demanda(o, k, almacen) == o[i].cantidad * cantidad;
    assert cantidad * Demanda(d, k, almacen) == 0;
  }

  /** The destination rows a reversal reads with `Stock.objects.get` all exist when it reaches them. */
  predicate Revertible(s: StockMap, cs: seq<Componente>, almacen: AlmacenId, cantidad: nat)
  {
    var tras := Aplicar(s, DeTipo(cs, Origen), almacen, cantidad);
    forall i :: 0 <= i < |DeTipo(cs, Destino)| ==> ClaveDe(DeTipo(cs, Destino)[i], almacen) in tras
  }

  /** The stock after a successful reversal: origins given back, then destinations taken out. */
  function Revertido(s: StockMap, cs: seq<Componente>, almacen: AlmacenId, cantidad: nat): StockMap
  {
    Aplicar(Aplicar(s, DeTipo(cs, Origen), almacen, cantidad), DeTipo(cs, Destino), almacen, -(cantidad as int))
  }

  /**
   * Consuming `o` and producing `d`, then giving `o` back and taking `d` out, `c` times
   * each, leaves every row where it was.
   */
  lemma IdaVuelta(s: StockMap, o: seq<Componente>, d: seq<Componente>, almacen: AlmacenId, c: nat, k: StockKey)
    ensures var e := Aplicar(Aplicar(s, o, almacen, -(c as int)), d, almacen, c);
      Cantidad(Aplicar(Aplicar(e, o, almacen, c), d, almacen, -(c as int)), k) == Cantidad(s, k)
  {
    var s1 := Aplicar(s, o, almacen, -(c as int));
    var s2 := Aplicar(s1, d, almacen, c);
    var s3 := Aplicar(s2, o, almacen, c);
    var s4 := Aplicar(s3, d, almacen, -(c as int));
    var a, b := Demanda(o, k, almacen), Demanda(d, k, almacen);
    var x, y := c * a, c * b;
    Opuesto(c, a);
    Opuesto(c, b);
    AplicarAt(s, o, almacen, -(c as int), k);
    assert Cantidad(s1, k) == Cantidad(s, k) - x;
    AplicarAt(s1, d, almacen, c, k);
    assert Cantidad(s2, k) == Cantidad(s, k) - x + y;
    AplicarAt(s2, o, almacen, c, k);
    assert Cantidad(s3, k) == Cantidad(s, k) + y;
    AplicarAt(s3, d, almacen, -(c as int), k);
  }

  /** Execute then revert: each row ends where it started. */
  lemma RevertirPorClave(s: StockMap, cs: seq<Componente>, almacen: AlmacenId, cantidad: nat, k: StockKey)
    ensures Cantidad(Revertido(Ejecutado(s, cs, almacen, cantidad), cs, almacen, cantidad), k) == Cantidad(s, k)
  {
    IdaVuelta(s, DeTipo(cs, Origen), DeTipo(cs, Destino), almacen, cantidad, k);
  }

  /** The rows of the components in `d` exist once `d` has been written. */
  lemma ClavesPresentes(s: StockMap, d: seq<Componente>, almacen: AlmacenId)
    requires Claves(d, almacen) <= s.Keys
    ensures forall i :: 0 <= i < |d| ==> ClaveDe(d[i], almacen) in s
  {
    forall i | 0 <= i < |d| ensures ClaveDe(d[i], almacen) in s {
      assert ClaveDe(d[i], almacen) in Claves(d, almacen);
    }
  }

  /** Execute then revert: the rows are those before plus every component's row. */
  lemma RevertirKeys(s: StockMap, cs: seq<Componente>, almacen: AlmacenId, cantidad: nat)
    ensures Revertible(Ejecutado(s, cs, almacen, cantidad), cs, almacen, cantidad)
    ensures Revertido(Ejecutado(s, cs, almacen, cantidad), cs, almacen, cantidad).Keys
      == s.Keys + Claves(DeTipo(cs, Origen), almacen) + Claves(DeTipo(cs, Destino), almacen)
  {
    var o, d := DeTipo(cs, Origen), DeTipo(cs, Destino);
    var e := Ejecutado(s, cs, almacen, cantidad);
    var back := Aplicar(e, o, almacen, cantidad);
    EjecutadoKeys(s, cs, almacen, cantidad);
    DosPasosKeys(e, o, d, almacen, cantidad, -(cantidad as int));
    AplicarKeys(e, o, almacen, cantidad);
    ClavesPresentes(back, d, almacen);
  }

  /**
   * Execute then revert, with the same components: the reversal cannot miss a row, and every
   * row ends where it started; the only trace is a destination row created at 0.
   */
  lemma EjecutarRevertirRestaura(s: StockMap, cs: seq<Componente>, almacen: AlmacenId, cantidad: nat)
    ensures Revertible(Ejecutado(s, cs, almacen, cantidad), cs, almacen, cantidad)
    ensures var r := Revertido(Ejecutado(s, cs, almacen, cantidad), cs, almacen, cantidad);
      r.Keys == s.Keys + Claves(DeTipo(cs, Origen), almacen) + Claves(DeTipo(cs, Destino), almacen)
      && forall k :: Cantidad(r, k) == Cantidad(s, k)
  {
    RevertirKeys(s, cs, almacen, cantidad);
    forall k ensures Cantidad(Revertido(Ejecutado(s, cs, almacen, cantidad), cs, almacen, cantidad), k) == Cantidad(s, k) {
      RevertirPorClave(s, cs, almacen, cantidad, k);
    }
  }

  /** The RegistroConversion table. */
  class HistorialConversiones {
    var registros: seq<RegistroConversion>

    constructor ()
      ensures registros == []
    {
      registros := [];
    }
  }

  datatype ConversionError =
    | FaltaStock(producto: ProductoId, necesario: int, disponible: int)
    | YaRevertida
    | FilaInexistente(producto: ProductoId)

  /** One stock write per component, in order: its row moves by its quantity times `factor`. */
  method AjustarComponentes(db: InventarioDb, cs: seq<Componente>, almacen: AlmacenId, factor: int)
    requires db.Valid()
    modifies db
    ensures db.Valid() && db.movimientos == old(db.movimientos)
    ensures db.stock == Aplicar(old(db.stock), cs, almacen, factor)
  {
    ghost var s0 := db.stock;
    var i := 0;
    while i < |cs|
      invariant 0 <= i <= |cs|
      invariant db.Valid() && db.movimientos == old(db.movimientos)
      invariant db.stock == Aplicar(s0, cs[..i], almacen, factor)
    {
      var componente := cs[i];
      assert cs[..i + 1][..i] == cs[..i];
      var delta := componente.cantidad * factor;
      db.AjustarStock(ClaveDe(componente, almacen), delta);
      i := i + 1;
    }
    assert cs[..i] == cs;
  }

  /**
   * The destination loop of a reversal: `Stock.objects.get` of each row, then the write. The
   * index of the first missing row when there is one, the writes before it made.
   */
  method RetirarComponentes(db: InventarioDb, cs: seq<Componente>, almacen: AlmacenId, factor: int)
    returns (faltante: Option<nat>)
    requires db.Valid()
    modifies db
    ensures db.Valid() && db.movimientos == old(db.movimientos)
    ensures faltante.None? <==> forall j :: 0 <= j < |cs| ==> ClaveDe(cs[j], almacen) in old(db.stock)
    ensures faltante.Some? ==> faltante.value < |cs| && ClaveDe(cs[faltante.value], almacen) !in old(db.stock)
    ensures faltante.None? ==> db.stock == Aplicar(old(db.stock), cs, almacen, factor)
  {
    ghost var s0 := db.stock;
    var i := 0;
    while i < |cs|
      invariant 0 <= i <= |cs|
      invariant db.Valid() && db.movimientos == old(db.movimientos)
      invariant db.stock == Aplicar(s0, cs[..i], almacen, factor)
      invariant db.stock.Keys == s0.Keys
      invariant forall j :: 0 <= j < i ==> ClaveDe(cs[j], almacen) in s0
    {
      var componente := cs[i];
      assert cs[..i + 1][..i] == cs[..i];
      if db.Fila(ClaveDe(componente, almacen)).None? {
        return Some(i);
      }
      var delta := componente.cantidad * factor;
      db.AjustarStock(ClaveDe(componente, almacen), delta);
      i := i + 1;
    }
    assert cs[..i] == cs;
    faltante := None;
  }

  /**
   * `ejecutar_conversion` on a valid form: check every ORIGEN row before writing; then, in one
   * atomic block, consume the origins, produce the destinations and record the execution.
   */
  method EjecutarConversion(db: InventarioDb, hist: HistorialConversiones, conversion: ConversionId,
                            componentes: seq<Componente>, almacen: AlmacenId, cantidad: nat,
                            usuario: UsuarioId, motivo: string)
    returns (r: Result<(), ConversionError>)
    requires db.Valid()
    modifies db, hist
    ensures db.Valid() && db.movimientos == old(db.movimientos)
    ensures r.Err? <==> !Suficiente(old(db.stock), DeTipo(componentes, Origen), almacen, cantidad)
    ensures r.Err? ==> db.stock == old(db.stock) && hist.registros == old(hist.registros)
    ensures r.Ok? ==> db.stock == Ejecutado(old(db.stock), componentes, almacen, cantidad)
    ensures r.Ok? ==> hist.registros == old(hist.registros) + [RegistroConversion(conversion, almacen, cantidad, usuario, motivo, false, None)]
  {
    var origenes := DeTipo(componentes, Origen);
    var i := 0;
    while i < |origenes|
      invariant 0 <= i <= |origenes|
      invariant forall j :: 0 <= j < i ==> Cubierto(db.stock, origenes[j], almacen, cantidad)
    {
      var componente := origenes[i];
      var necesario := componente.cantidad * cantidad;
      var fila := db.Fila(ClaveDe(componente, almacen));
      if fila.None? || fila.value < necesario {
        return Err(FaltaStock(componente.producto, necesario, if fila.Some? then fila.value else 0));
      }
      i := i + 1;
    }
    ghost var s0 := db.stock;
    AjustarComponentes(db, origenes, almacen, -(cantidad as int));
    AjustarComponentes(db, DeTipo(componentes, Destino), almacen, cantidad);
    hist.registros := hist.registros + [RegistroConversion(conversion, almacen, cantidad, usuario, motivo, false, None)];
    r := Ok(());
  }

  /** The motivo of a reversal record. */
  function MotivoReversion(id: nat): string
  {
    "Reversión de #" + NatToString(id)
  }

  /**
   * `revertir_conversion_view` for the record at position `i` (id `i + 1`), with the
   * conversion's current components: a record already reverted is refused; otherwise, in one
   * atomic block, give back the origins, take out the destinations (a missing destination row
   * raises and the block rolls back), record the linked reversal and mark the original.
   */
  method RevertirConversion(db: InventarioDb, hist: HistorialConversiones, i: nat,
                            componentes: seq<Componente>, usuario: UsuarioId)
    returns (r: Result<(), ConversionError>)
    requires db.Valid() && i < |hist.registros|
    modifies db, hist
    ensures db.Valid() && db.movimientos == old(db.movimientos)
    ensures old(hist.registros[i].revertido) ==> r == Err(YaRevertida)
    ensures r.Ok? <==> (!old(hist.registros[i].revertido)
      && Revertible(old(db.stock), componentes, old(hist.registros[i].almacen), old(hist.registros[i].cantidadEjecuciones)))
    ensures r.Err? ==> db.stock == old(db.stock) && hist.registros == old(hist.registros)
    ensures r.Ok? ==> db.stock == Revertido(old(db.stock), componentes, old(hist.registros[i].almacen), old(hist.registros[i].cantidadEjecuciones))
    ensures r.Ok? ==> (hist.registros == old(hist.registros)[i := old(hist.registros[i]).(revertido := true)]
      + [RegistroConversion(old(hist.registros[i].conversion), old(hist.registros[i].almacen),
                            old(hist.registros[i].cantidadEjecuciones), usuario, MotivoReversion(i + 1), false, Some(i + 1))])
  {
    var registro := hist.registros[i];
    if registro.revertido {
      return Err(YaRevertida);
    }
    var almacen, cantidad := registro.almacen, registro.cantidadEjecuciones;
    var s0 := db.stock;
    ghost var a0 := db.ajustes;
    var origenes, destinos := DeTipo(componentes, Origen), DeTipo(componentes, Destino);
    AjustarComponentes(db, origenes, almacen, cantidad);
    assert db.stock == Aplicar(s0, origenes, almacen, cantidad);
    var faltante := RetirarComponentes(db, destinos, almacen, -(cantidad as int));
    if faltante.Some? {
      db.Rollback(s0, a0);
      return Err(FilaInexistente(destinos[faltante.value].producto));
    }
    var registros := hist.registros;
    var nuevo := RegistroConversion(registro.conversion, almacen, cantidad, usuario, MotivoReversion(i + 1), false, Some(i + 1));
    assert (registros + [nuevo])[i := registro.(revertido := true)] == registros[i := registro.(revertido := true)] + [nuevo];
    hist.registros := registros + [nuevo];
    hist.registros := hist.registros[i := registro.(revertido := true)];
    r := Ok(());
  }
}
