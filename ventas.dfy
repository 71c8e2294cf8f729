/**
 * Sales (ventas/models.py): a sale is drafted (BORRADOR), finalised (FINALIZADA — one cash
 * INGRESO of its total and one stock SALIDA per detail) and may be cancelled (CANCELADA —
 * a compensating EGRESO and one ENTRADA per movement of the sale). Amounts are integers.
 */
module Ventas {
  import opened Base
  import opened Inventario
  import opened Cajas

  datatype EstadoVenta = Borrador | Finalizada | Cancelada

  datatype TipoPago = Efectivo | Tarjeta | Transferencia | Mixto

  datatype DetalleVenta = DetalleVenta(
    producto: ProductoId,
    almacen: AlmacenId,
    cantidad: nat,
    precioUnitario: int,
    subtotal: int)
  {
    function Key(): StockKey { StockKey(producto, almacen) }
  }

  function Subtotales(ds: seq<DetalleVenta>): (r: seq<int>)
    ensures |r| == |ds| && forall i :: 0 <= i < |ds| ==> r[i] == ds[i].subtotal
  {
    seq(|ds|, i requires 0 <= i < |ds| => ds[i].subtotal)
  }

  /** `sum(detalle.subtotal for detalle in detalles)`. */
  function Total(ds: seq<DetalleVenta>): int
  {
    Sum(Subtotales(ds))
  }

  /** The total of no details is 0; adding or replacing a detail moves it by the subtotals. */
  lemma TotalSpec(ds: seq<DetalleVenta>, j: nat, d: DetalleVenta)
    ensures Total([]) == 0
    ensures Total(ds + [d]) == Total(ds) + d.subtotal
    ensures j < |ds| ==> Total(ds[j := d]) == Total(ds) - ds[j].subtotal + d.subtotal
  {
    assert Subtotales(ds + [d]) == Subtotales(ds) + [d.subtotal];
    SumAppend(Subtotales(ds), d.subtotal);
    if j < |ds| {
      assert Subtotales(ds[j := d]) == Subtotales(ds)[j := d.subtotal];
      SumUpdate(Subtotales(ds), j, d.subtotal);
    }
  }

  datatype VentaError =
    | NoEsBorrador
    | CajaNoAbierta
    | SinStockPara(producto: ProductoId)
    | NoEsFinalizada
    | CantidadNoPositiva
    | PrecioNoPositivo
    | DisponibleInsuficiente(disponible: int)

  /**
   * `DetalleVenta.clean`: quantity and unit price must be positive; on a FINALIZADA sale an
   * existing stock row must hold the quantity.
   */
  function CleanDetalle(d: DetalleVenta, estado: EstadoVenta, s: StockMap): Result<(), VentaError>
  {
    if d.cantidad <= 0 then Err(CantidadNoPositiva)
    else if d.precioUnitario <= 0 then Err(PrecioNoPositivo)
    else if estado == Finalizada && d.Key() in s && s[d.Key()] < d.cantidad then Err(DisponibleInsuficiente(s[d.Key()]))
    else Ok(())
  }

  lemma CleanDetalleIff(d: DetalleVenta, estado: EstadoVenta, s: StockMap)
    ensures CleanDetalle(d, estado, s).Ok? <==>
      (d.cantidad > 0 && d.precioUnitario > 0 && !(estado == Finalizada && d.Key() in s && s[d.Key()] < d.cantidad))
    ensures estado != Finalizada ==> (CleanDetalle(d, estado, s).Ok? <==> d.cantidad > 0 && d.precioUnitario > 0)
  {
  }

  /** The stock check of `finalizar` for one detail: a row exists and holds the quantity. */
  predicate Cubre(s: StockMap, d: DetalleVenta)
  {
    d.Key() in s && s[d.Key()] >= d.cantidad
  }

  /** The first detail the stock does not cover. */
  function PrimerFaltante(s: StockMap, ds: seq<DetalleVenta>): (r: Option<nat>)
    ensures r.None? <==> forall i :: 0 <= i < |ds| ==> Cubre(s, ds[i])
    ensures r.Some? ==> (r.value < |ds| && !Cubre(s, ds[r.value])
      && forall i :: 0 <= i < r.value ==> Cubre(s, ds[i]))
  {
    if ds == [] then None
    else if !Cubre(s, ds[0]) then Some(0)
    else match PrimerFaltante(s, ds[1..])
      case None => None
      case Some(i) => Some(i + 1)
  }

  /** What `finalizar` answers. */
  function ResultadoFinalizar(estado: EstadoVenta, estadoCaja: EstadoCaja, s: StockMap, ds: seq<DetalleVenta>)
    : Result<(), VentaError>
  {
    if estado != Borrador then Err(NoEsBorrador)
    else if estadoCaja != Abierta then Err(CajaNoAbierta)
    else match PrimerFaltante(s, ds)
      case Some(i) => Err(SinStockPara(ds[i].producto))
      case None => Ok(())
  }

  function MotivoVenta(numero: string): string { "Venta " + numero }

  function MotivoCancelacion(numero: string): string { "Cancelación Venta " + numero }

  /** The INGRESO `finalizar` records. */
  function IngresoVenta(caja: CajaId, total: int, vendedor: UsuarioId, numero: string, venta: nat): (m: MovimientoCaja)
    ensures m.tipo == Ingreso && m.monto == total && m.caja == caja && m.venta == Some(venta)
  {
    MovimientoCaja(caja, Ingreso, total, vendedor, MotivoVenta(numero), Some(venta), "V-" + numero)
  }

  /** The EGRESO `cancelar` records against the sale's movement `m`. */
  function Anulacion(m: MovimientoCaja, usuario: UsuarioId, numero: string, venta: nat): (r: MovimientoCaja)
    ensures r.tipo == Egreso && r.monto == m.monto && r.caja == m.caja && r.venta == Some(venta)
  {
    MovimientoCaja(m.caja, Egreso, m.monto, usuario, MotivoCancelacion(numero), Some(venta), "NC-" + numero)
  }

  /** The SALIDA `finalizar` records for a detail. */
  function SalidaDe(d: DetalleVenta, vendedor: UsuarioId, numero: string): Movimiento
  {
    Movimiento(d.producto, d.almacen, d.cantidad, Salida, vendedor, MotivoVenta(numero))
  }

  function Salidas(ds: seq<DetalleVenta>, vendedor: UsuarioId, numero: string): (r: seq<Movimiento>)
    ensures |r| == |ds| && forall i :: 0 <= i < |ds| ==> r[i] == SalidaDe(ds[i], vendedor, numero)
  {
    seq(|ds|, i requires 0 <= i < |ds| => SalidaDe(ds[i], vendedor, numero))
  }

  /** The ENTRADA `cancelar` records to mirror a movement of the sale. */
  function ReversaDe(m: Movimiento, usuario: UsuarioId, numero: string): Movimiento
  {
    Movimiento(m.producto, m.almacen, m.cantidad, Entrada, usuario, MotivoCancelacion(numero))
  }

  function Reversas(ms: seq<Movimiento>, usuario: UsuarioId, numero: string): (r: seq<Movimiento>)
    ensures |r| == |ms| && forall i :: 0 <= i < |ms| ==> r[i] == ReversaDe(ms[i], usuario, numero)
  {
    seq(|ms|, i requires 0 <= i < |ms| => ReversaDe(ms[i], usuario, numero))
  }

  /**
   * `MovimientoInventario.objects.filter(motivo=...)` under the model's `-fecha` ordering: the
   * matching rows, most recently saved first.
   */
  function DeMotivo(ms: seq<Movimiento>, motivo: string): seq<Movimiento>
  {
    if ms == [] then []
    else (if ms[|ms| - 1].motivo == motivo then [ms[|ms| - 1]] else []) + DeMotivo(ms[..|ms| - 1], motivo)
  }

  /** Rows saved later come first: the filter of a table saved in two runs lists the second run first. */
  lemma {:induction false} DeMotivoConcat(a: seq<Movimiento>, b: seq<Movimiento>, motivo: string)
    ensures DeMotivo(a + b, motivo) == DeMotivo(b, motivo) + DeMotivo(a, motivo)
    decreases |b|
  {
    if b == [] {
      assert a + b == a;
    } else {
      assert (a + b)[..|a + b| - 1] == a + b[..|b| - 1];
      DeMotivoConcat(a, b[..|b| - 1], motivo);
    }
  }

  /** Filtering lists a sequence whose every motivo matches newest first, and empties one where none does. */
  lemma {:induction false} DeMotivoExtremos(ms: seq<Movimiento>, motivo: string)
    ensures (forall i :: 0 <= i < |ms| ==> ms[i].motivo == motivo) ==> DeMotivo(ms, motivo) == Invertida(ms)
    ensures (forall i :: 0 <= i < |ms| ==> ms[i].motivo != motivo) ==> DeMotivo(ms, motivo) == []
  {
    if ms != [] {
      DeMotivoExtremos(ms[..|ms| - 1], motivo);
    }
  }

  /** The net effect of a run of movements does not depend on their order. */
  lemma {:induction false} NetEffectInvertida(ms: seq<Movimiento>, k: StockKey)
    ensures NetEffect(Invertida(ms), k) == NetEffect(ms, k)
  {
    if ms != [] {
      var n := |ms| - 1;
      NetEffectInvertida(ms[..n], k);
      NetEffectConcat([ms[n]], Invertida(ms[..n]), k);
      assert [ms[n]][..0] == [];
    }
  }

  /** Mirroring SALIDAs with ENTRADAs of the same quantities undoes their net effect everywhere. */
  lemma {:induction false} ReversasNetEffect(ms: seq<Movimiento>, usuario: UsuarioId, numero: string, k: StockKey)
    requires forall i :: 0 <= i < |ms| ==> ms[i].tipo == Salida
    ensures NetEffect(Reversas(ms, usuario, numero), k) == -NetEffect(ms, k)
  {
    if ms != [] {
      var n := |ms| - 1;
      assert Reversas(ms, usuario, numero)[..n] == Reversas(ms[..n], usuario, numero);
      ReversasNetEffect(ms[..n], usuario, numero, k);
    }
  }

  /**
   * Registering SALIDAs and then their mirroring ENTRADAs, newest first, leaves every stock
   * quantity as it was.
   */
  lemma SalidasReversasRestauran(s: StockMap, ms: seq<Movimiento>, usuario: UsuarioId, numero: string, k: StockKey)
    requires forall i :: 0 <= i < |ms| ==> ms[i].tipo == Salida
    ensures Cantidad(Registrar(Registrar(s, ms), Reversas(Invertida(ms), usuario, numero)), k) == Cantidad(s, k)
  {
    RegistrarPorClave(s, ms, k);
    RegistrarPorClave(Registrar(s, ms), Reversas(Invertida(ms), usuario, numero), k);
    ReversasNetEffect(Invertida(ms), usuario, numero, k);
    NetEffectInvertida(ms, k);
  }

  /**
   * When no earlier movement has the sale's motivo, the filter of `cancelar` finds exactly its
   * SALIDAs, the last one first.
   */
  lemma DeMotivoFinalizada(previos: seq<Movimiento>, ds: seq<DetalleVenta>, vendedor: UsuarioId, numero: string)
    requires forall i :: 0 <= i < |previos| ==> previos[i].motivo != MotivoVenta(numero)
    ensures DeMotivo(previos + Salidas(ds, vendedor, numero), MotivoVenta(numero))
      == Invertida(Salidas(ds, vendedor, numero))
  {
    var salidas := Salidas(ds, vendedor, numero);
    DeMotivoConcat(previos, salidas, MotivoVenta(numero));
    DeMotivoExtremos(previos, MotivoVenta(numero));
    DeMotivoExtremos(salidas, MotivoVenta(numero));
    assert Invertida(salidas) + [] == Invertida(salidas);
  }

  /**
   * When no movement had the sale's motivo before `finalizar`, cancelling mirrors exactly the
   * SALIDAs it recorded, and every stock row returns to its quantity before the sale.
   */
  lemma FinalizarCancelarRestauraStock(s: StockMap, previos: seq<Movimiento>, ds: seq<DetalleVenta>,
                                       vendedor: UsuarioId, usuario: UsuarioId, numero: string, k: StockKey)
    requires forall i :: 0 <= i < |previos| ==> previos[i].motivo != MotivoVenta(numero)
    ensures Cantidad(Registrar(Registrar(s, Salidas(ds, vendedor, numero)),
      Reversas(DeMotivo(previos + Salidas(ds, vendedor, numero), MotivoVenta(numero)), usuario, numero)), k)
      == Cantidad(s, k)
  {
    DeMotivoFinalizada(previos, ds, vendedor, numero);
    SalidasReversasRestauran(s, Salidas(ds, vendedor, numero), usuario, numero, k);
  }

  /**
   * The INGRESO `finalizar` appends is the movement `cancelar` then finds for the sale, and its
   * EGRESO nets it to zero on the register.
   */
  lemma FinalizarCancelarRestauraSaldo(ms: seq<MovimientoCaja>, caja: CajaId, total: int, vendedor: UsuarioId,
                                       usuario: UsuarioId, numero: string, venta: nat)
    ensures var ingreso := IngresoVenta(caja, total, vendedor, numero, venta);
      && UltimoDeVenta(ms + [ingreso], venta) == Some(|ms|)
      && Neto([ingreso, Anulacion(ingreso, usuario, numero, venta)]) == 0
      && Anulacion(ingreso, usuario, numero, venta).caja == caja
  {
    var ingreso := IngresoVenta(caja, total, vendedor, numero, venta);
    IngresoEgresoNetoCero(ingreso, Anulacion(ingreso, usuario, numero, venta));
  }

  /**
   * With the details on distinct rows, a finalised sale lowers each detail's row by exactly its
   * quantity, which the check guaranteed was there.
   */
  lemma FinalizarNoNegativo(s: StockMap, ds: seq<DetalleVenta>, vendedor: UsuarioId, numero: string, j: nat)
    requires j < |ds| && PrimerFaltante(s, ds).None?
    requires forall a, b :: 0 <= a < b < |ds| ==> ds[a].Key() != ds[b].Key()
    ensures Cantidad(Registrar(s, Salidas(ds, vendedor, numero)), ds[j].Key()) == s[ds[j].Key()] - ds[j].cantidad >= 0
  {
    var salidas := Salidas(ds, vendedor, numero);
    assert salidas[j].Key() == ds[j].Key();
    RegistrarPorClave(s, salidas, ds[j].Key());
    NetEffectDistinct(salidas, j);
  }

  /**
   * The check is per detail, not per row: two details of 3 units on a row holding 5 both pass,
   * and the model's stock, which has no constraint, reaches -1. In the program only the
   * non-negative `Stock.cantidad` column refuses that save, and the view shows its generic error.
   */
  lemma FinalizarDosDetallesMismaFila(k: StockKey, vendedor: UsuarioId, numero: string)
    ensures var d := DetalleVenta(k.producto, k.almacen, 3, 1, 3);
      var s := map[k := 5];
      PrimerFaltante(s, [d, d]).None? && Cantidad(Registrar(s, Salidas([d, d], vendedor, numero)), k) == -1
  {
    var d := DetalleVenta(k.producto, k.almacen, 3, 1, 3);
    var s := map[k := 5];
    var m := SalidaDe(d, vendedor, numero);
    assert Salidas([d, d], vendedor, numero) == [m, m];
    assert Contribution(m, k) == -3 by { assert Effect(Salida) == -1; }
    assert [m, m][..1] == [m] && [m][..0] == [];
    assert NetEffect([m], k) == -3;
    RegistrarPorClave(s, [m, m], k);
  }

  class Venta {
    const id: nat
    const numero: string
    const vendedor: UsuarioId
    var estado: EstadoVenta
    var tipoPago: Option<TipoPago>
    var caja: Option<CajaId>
    var total: int
    var detalles: seq<DetalleVenta>

    /** A new sale: BORRADOR, without details, total 0. */
    constructor (id: nat, numero: string, vendedor: UsuarioId)
      ensures this.id == id && this.numero == numero && this.vendedor == vendedor
      ensures estado == Borrador && tipoPago == None && caja == None && total == 0 && detalles == []
    {
      this.id := id;
      this.numero := numero;
      this.vendedor := vendedor;
      estado := Borrador;
      tipoPago := None;
      caja := None;
      total := 0;
      detalles := [];
    }

    /** `Venta.calcular_totales`: the total becomes the sum of the details' subtotals. */
    method CalcularTotales()
      modifies this
      ensures total == Total(detalles)
      ensures detalles == old(detalles) && estado == old(estado) && tipoPago == old(tipoPago) && caja == old(caja)
    {
      total := Total(detalles);
    }

    /**
     * `DetalleVenta.save` of detail `j` (a new one when j is the number of details): its
     * subtotal becomes quantity x unit price, then the sale's total is recomputed.
     */
    method GuardarDetalle(j: nat, d: DetalleVenta)
      requires j <= |detalles|
      modifies this
      ensures var g := d.(subtotal := d.cantidad * d.precioUnitario);
        detalles == (if j == |old(detalles)| then old(detalles) + [g] else old(detalles)[j := g])
      ensures total == Total(detalles)
      ensures estado == old(estado) && tipoPago == old(tipoPago) && caja == old(caja)
    {
      var g := d.(subtotal := d.cantidad * d.precioUnitario);
      if j == |detalles| {
        detalles := detalles + [g];
      } else {
        detalles := detalles[j := g];
      }
      CalcularTotales();
    }

    /**
     * `Venta.finalizar` on register `caja`: refused unless BORRADOR and the register is
     * ABIERTA, and refused with no change when a detail's row is missing or short. Otherwise
     * FINALIZADA with the payment type and register, one INGRESO of the total on the register,
     * and one SALIDA per detail.
     */
    method Finalizar(caja: Caja, tipoPago: TipoPago, db: InventarioDb, libro: LibroCaja) returns (r: Result<(), VentaError>)
      requires db.Valid() && caja.Valid()
      modifies this, caja, db, libro
      ensures db.Valid() && caja.Valid()
      ensures r == ResultadoFinalizar(old(estado), old(caja.estado), old(db.stock), detalles)
      ensures detalles == old(detalles) && total == old(total)
      ensures caja.estado == old(caja.estado) && caja.saldoInicial == old(caja.saldoInicial)
      ensures r.Err? ==> (estado == old(estado) && this.tipoPago == old(this.tipoPago) && this.caja == old(this.caja)
        && caja.saldoActual == old(caja.saldoActual) && libro.movimientos == old(libro.movimientos)
        && db.stock == old(db.stock) && db.movimientos == old(db.movimientos))
      ensures r.Ok? ==> (estado == Finalizada && this.tipoPago == Some(tipoPago) && this.caja == Some(caja.id)
        && libro.movimientos == old(libro.movimientos) + [IngresoVenta(caja.id, total, vendedor, numero, id)]
        && caja.saldoActual == old(caja.saldoActual) + total
        && db.movimientos == old(db.movimientos) + Salidas(detalles, vendedor, numero)
        && db.stock == Registrar(old(db.stock), Salidas(detalles, vendedor, numero)))
    {
      if estado != Borrador {
        return Err(NoEsBorrador);
      }
      if caja.estado != Abierta {
        return Err(CajaNoAbierta);
      }
      var ds := detalles;
      ghost var s0 := db.stock;
      var i := 0;
      while i < |ds|
        invariant 0 <= i <= |ds|
        invariant forall j :: 0 <= j < i ==> Cubre(s0, ds[j])
      {
        var fila := db.Fila(ds[i].Key());
        if fila.None? || fila.value < ds[i].cantidad {
          assert PrimerFaltante(s0, ds) == Some(i);
          return Err(SinStockPara(ds[i].producto));
        }
        i := i + 1;
      }
      estado := Finalizada;
      this.tipoPago := Some(tipoPago);
      this.caja := Some(caja.id);
      libro.Guardar(caja, IngresoVenta(caja.id, total, vendedor, numero, id));
      db.CrearTodos(Salidas(ds, vendedor, numero));
      r := Ok(());
    }

    /**
     * `Venta.cancelar`: refused unless FINALIZADA. The sale's most recent cash movement, if
     * any, gets a matching EGRESO on its register `cajaMovimiento`; every inventory movement
     * whose motivo is the sale's gets a mirroring ENTRADA, newest first as the queryset lists
     * them; the sale turns CANCELADA.
     */
    method Cancelar(usuario: UsuarioId, db: InventarioDb, libro: LibroCaja, cajaMovimiento: Caja)
      returns (r: Result<(), VentaError>)
      requires db.Valid() && cajaMovimiento.Valid()
      requires UltimoDeVenta(libro.movimientos, id).Some? ==>
        cajaMovimiento.id == libro.movimientos[UltimoDeVenta(libro.movimientos, id).value].caja
      modifies this, db, libro, cajaMovimiento
      ensures db.Valid() && cajaMovimiento.Valid()
      ensures detalles == old(detalles) && total == old(total) && tipoPago == old(tipoPago) && caja == old(caja)
      ensures old(estado) != Finalizada ==> (r == Err(NoEsFinalizada) && estado == old(estado)
        && libro.movimientos == old(libro.movimientos) && cajaMovimiento.saldoActual == old(cajaMovimiento.saldoActual)
        && db.stock == old(db.stock) && db.movimientos == old(db.movimientos))
      ensures old(estado) == Finalizada ==> (r == Ok(()) && estado == Cancelada
        && (var u := UltimoDeVenta(old(libro.movimientos), id);
            && (u.Some? ==> (libro.movimientos == old(libro.movimientos)
                  + [Anulacion(old(libro.movimientos)[u.value], usuario, numero, id)]
                && cajaMovimiento.saldoActual == old(cajaMovimiento.saldoActual) - old(libro.movimientos)[u.value].monto))
            && (u.None? ==> (libro.movimientos == old(libro.movimientos)
                && cajaMovimiento.saldoActual == old(cajaMovimiento.saldoActual))))
        && (var reversas := Reversas(DeMotivo(old(db.movimientos), MotivoVenta(numero)), usuario, numero);
            db.movimientos == old(db.movimientos) + reversas && db.stock == Registrar(old(db.stock), reversas)))
    {
      if estado != Finalizada {
        return Err(NoEsFinalizada);
      }
      var u := UltimoDeVenta(libro.movimientos, id);
      if u.Some? {
        var movimiento := libro.movimientos[u.value];
        libro.Guardar(cajaMovimiento, Anulacion(movimiento, usuario, numero, id));
      }
      var previos := DeMotivo(db.movimientos, MotivoVenta(numero));
      db.CrearTodos(Reversas(previos, usuario, numero));
      estado := Cancelada;
      r := Ok(());
    }
  }
}
