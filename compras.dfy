/**
 * Purchase orders (compras/models.py): an order is drafted (BORRADOR), approved (APROBADA)
 * and received (RECIBIDA) into a warehouse, which marks every line received and books one
 * stock ENTRADA per line. Amounts are integers.
 *
 * Producto declares no `precio_compra` field. The `actualizar_precio_producto` receiver sets
 * it as a plain attribute on the line's in-memory product, and `producto.save()` never stores
 * it. Its one observable consequence is that `recibir` reads the attribute back, which raises
 * AttributeError for a line the receiver skipped (a quantity of 0).
 */
module Compras {
  import opened Base
  import opened Inventario

  datatype EstadoOrden = Borrador | Aprobada | Recibida | Cancelada

  datatype DetalleOrden = DetalleOrden(
    producto: ProductoId,
    cantidad: nat,
    precioUnitario: int,
    subtotal: int,
    recibido: bool,
    cantidadRecibida: nat)

  /** A RecepcionCompra row. */
  datatype RecepcionCompra = RecepcionCompra(recibidoPor: UsuarioId, almacen: AlmacenId)

  function Subtotales(ds: seq<DetalleOrden>): (r: seq<int>)
    ensures |r| == |ds| && forall i :: 0 <= i < |ds| ==> r[i] == ds[i].subtotal
  {
    seq(|ds|, i requires 0 <= i < |ds| => ds[i].subtotal)
  }

  /** `sum(detalle.subtotal for detalle in detalles)`. */
  function Total(ds: seq<DetalleOrden>): int
  {
    Sum(Subtotales(ds))
  }

  /** The total of no lines is 0; adding or replacing a line moves it by the subtotals. */
  lemma TotalSpec(ds: seq<DetalleOrden>, j: nat, d: DetalleOrden)
    ensures Total([]) == 0
    ensures Total(ds + [d]) == Total(ds) + d.subtotal
    ensures j < |ds| ==> Total(ds[j := d]) == Total(ds) - ds[j].subtotal + d.subtotal
  {
    assert Subtotales(ds + [d]) == Subtotales(ds) + [d.subtotal];
    SumAppend(Subtotales(ds), d.subtotal);
    if j < |ds| {
      assert Subtotales(ds[j := d]) == Subtotales(ds)[j := d.subtotal];
      SumUpdate(Subtotales(ds), j, d.subtotal);
    }
  }

  /** The two `clean` refusals, and the AttributeError `recibir` raises on a missing `precio_compra`. */
  datatype CompraError = CantidadNoPositiva | PrecioNoPositivo | SinPrecioCompra

  /** `DetalleOrdenCompra.clean`. */
  function CleanDetalle(d: DetalleOrden): Result<(), CompraError>
  {
    if d.cantidad <= 0 then Err(CantidadNoPositiva)
    else if d.precioUnitario <= 0 then Err(PrecioNoPositivo)
    else Ok(())
  }

  lemma CleanDetalleIff(d: DetalleOrden)
    ensures CleanDetalle(d).Ok? <==> d.cantidad > 0 && d.precioUnitario > 0
    ensures CleanDetalle(d) == Err(CantidadNoPositiva) <==> d.cantidad == 0
  {
  }

  /**
   * The `actualizar_precio_producto` receiver on a saved line, over the `precio_compra`
   * attribute of the line's in-memory product (None while the attribute is not set): it
   * becomes the line's unit price when the line is received with a positive quantity.
   */
  function ActualizarPrecio(precioCompra: Option<int>, d: DetalleOrden): (r: Option<int>)
    ensures d.recibido && d.cantidadRecibida > 0 ==> r == Some(d.precioUnitario)
    ensures !(d.recibido && d.cantidadRecibida > 0) ==> r == precioCompra
  {
    if d.recibido && d.cantidadRecibida > 0 then Some(d.precioUnitario) else precioCompra
  }

  /**
   * In `recibir` every line's product is loaded afresh, without the attribute. After the line
   * is saved received, the attribute exists exactly when the quantity is positive, and then it
   * already equals the unit price, so the comparison that follows never writes.
   */
  lemma PrecioCompraLeido(d: DetalleOrden)
    ensures ActualizarPrecio(None, RecibidoDe(d)).Some? <==> d.cantidad > 0
    ensures d.cantidad > 0 ==> ActualizarPrecio(None, RecibidoDe(d)).value == d.precioUnitario
  {
  }

  /** A line as `recibir` saves it: fully received, with its subtotal recomputed. */
  function RecibidoDe(d: DetalleOrden): (r: DetalleOrden)
    ensures r.recibido && r.cantidadRecibida == r.cantidad == d.cantidad
    ensures r.producto == d.producto && r.precioUnitario == d.precioUnitario
    ensures r.subtotal == d.cantidad * d.precioUnitario
  {
    d.(subtotal := d.cantidad * d.precioUnitario, recibido := true, cantidadRecibida := d.cantidad)
  }

  function Recibidos(ds: seq<DetalleOrden>): (r: seq<DetalleOrden>)
    ensures |r| == |ds| && forall i :: 0 <= i < |ds| ==> r[i] == RecibidoDe(ds[i])
  {
    seq(|ds|, i requires 0 <= i < |ds| => RecibidoDe(ds[i]))
  }

  function MotivoRecepcion(numero: string): string { "Recepción de OC-" + numero }

  /** The ENTRADA `recibir` books for a line. */
  function EntradaDe(d: DetalleOrden, usuario: UsuarioId, almacen: AlmacenId, numero: string): (m: Movimiento)
    ensures m.Key() == StockKey(d.producto, almacen) && m.cantidad == d.cantidad && m.tipo == Entrada
  {
    Movimiento(d.producto, almacen, d.cantidad, Entrada, usuario, MotivoRecepcion(numero))
  }

  function Entradas(ds: seq<DetalleOrden>, usuario: UsuarioId, almacen: AlmacenId, numero: string): (r: seq<Movimiento>)
    ensures |r| == |ds| && forall i :: 0 <= i < |ds| ==> r[i] == EntradaDe(ds[i], usuario, almacen, numero)
  {
    seq(|ds|, i requires 0 <= i < |ds| => EntradaDe(ds[i], usuario, almacen, numero))
  }

  /**
   * With one line per product, receiving raises each line's product in the receiving
   * warehouse by exactly its quantity; every other row, in any other warehouse too, is
   * untouched.
   */
  lemma RecibirStock(s: StockMap, ds: seq<DetalleOrden>, usuario: UsuarioId, almacen: AlmacenId, numero: string,
                     j: nat, k: StockKey)
    requires j < |ds| && forall a, b :: 0 <= a < b < |ds| ==> ds[a].producto != ds[b].producto
    ensures Cantidad(Registrar(s, Entradas(ds, usuario, almacen, numero)), StockKey(ds[j].producto, almacen))
      == Cantidad(s, StockKey(ds[j].producto, almacen)) + ds[j].cantidad
    ensures ((k.almacen != almacen || forall i :: 0 <= i < |ds| ==> ds[i].producto != k.producto) ==>
      Cantidad(Registrar(s, Entradas(ds, usuario, almacen, numero)), k) == Cantidad(s, k))
  {
    var es := Entradas(ds, usuario, almacen, numero);
    RegistrarPorClave(s, es, StockKey(ds[j].producto, almacen));
    NetEffectDistinct(es, j);
    assert Effect(Entrada) == 1;
    RegistrarPorClave(s, es, k);
    if k.almacen != almacen || forall i :: 0 <= i < |ds| ==> ds[i].producto != k.producto {
      NetEffectAbsent(es, k);
    }
  }

  /** One more received line extends the ENTRADAs and the stock by that line. */
  lemma RecepcionPaso(s: StockMap, hechos: seq<DetalleOrden>, d: DetalleOrden,
                      usuario: UsuarioId, almacen: AlmacenId, numero: string)
    ensures Entradas(hechos + [d], usuario, almacen, numero)
      == Entradas(hechos, usuario, almacen, numero) + [EntradaDe(d, usuario, almacen, numero)]
    ensures Registrar(s, Entradas(hechos + [d], usuario, almacen, numero))
      == SaveMovimiento(Registrar(s, Entradas(hechos, usuario, almacen, numero)), None, EntradaDe(d, usuario, almacen, numero))
  {
    assert Entradas(hechos + [d], usuario, almacen, numero)
      == Entradas(hechos, usuario, almacen, numero) + [EntradaDe(d, usuario, almacen, numero)];
    RegistrarConcat(s, Entradas(hechos, usuario, almacen, numero), EntradaDe(d, usuario, almacen, numero));
  }

  /** The loop of `recibir` after `n` lines: those are received, the rest are as they were. */
  ghost predicate RecibidosHasta(detalles: seq<DetalleOrden>, ds: seq<DetalleOrden>, n: nat)
  {
    && |detalles| == |ds| && n <= |ds|
    && (forall j :: 0 <= j < n ==> detalles[j] == RecibidoDe(ds[j]))
    && (forall j :: n <= j < |ds| ==> detalles[j] == ds[j])
  }

  lemma RecibidosPaso(detalles: seq<DetalleOrden>, ds: seq<DetalleOrden>, n: nat)
    requires RecibidosHasta(detalles, ds, n) && n < |ds|
    ensures detalles[n] == ds[n] && RecibidosHasta(detalles[n := RecibidoDe(ds[n])], ds, n + 1)
  {
  }

  lemma RecibidosTodos(detalles: seq<DetalleOrden>, ds: seq<DetalleOrden>)
    requires RecibidosHasta(detalles, ds, |ds|)
    ensures detalles == Recibidos(ds)
  {
  }

  /** Lines saved through `save` keep subtotal = quantity x price; receiving them keeps the total. */
  ghost predicate Consistentes(ds: seq<DetalleOrden>)
  {
    forall i :: 0 <= i < |ds| ==> ds[i].subtotal == ds[i].cantidad * ds[i].precioUnitario
  }

  lemma RecibirConservaTotal(ds: seq<DetalleOrden>)
    requires Consistentes(ds)
    ensures Total(Recibidos(ds)) == Total(ds) && Consistentes(Recibidos(ds))
  {
    assert Subtotales(Recibidos(ds)) == Subtotales(ds);
  }

  class OrdenCompra {
    const numero: string
    var estado: EstadoOrden
    var subtotal: int
    var total: int
    var detalles: seq<DetalleOrden>
    var recepciones: seq<RecepcionCompra>

    /** A new order: BORRADOR, without lines, totals 0. */
    constructor (numero: string)
      ensures this.numero == numero && estado == Borrador && subtotal == 0 && total == 0
      ensures detalles == [] && recepciones == []
    {
      this.numero := numero;
      estado := Borrador;
      subtotal := 0;
      total := 0;
      detalles := [];
      recepciones := [];
    }

    /** `OrdenCompra.calcular_totales`: subtotal is the sum of the line subtotals and total equals it. */
    method CalcularTotales()
      modifies this
      ensures subtotal == Total(detalles) && total == subtotal
      ensures detalles == old(detalles) && estado == old(estado) && recepciones == old(recepciones)
    {
      subtotal := Total(detalles);
      total := subtotal;
    }

    /** `OrdenCompra.aprobar`: BORRADOR becomes APROBADA; any other state is left alone. */
    method Aprobar()
      modifies this
      ensures old(estado) == Borrador ==> estado == Aprobada
      ensures old(estado) != Borrador ==> estado == old(estado)
      ensures detalles == old(detalles) && subtotal == old(subtotal) && total == old(total)
      ensures recepciones == old(recepciones)
    {
      if estado == Borrador {
        estado := Aprobada;
      }
    }

    /**
     * `DetalleOrdenCompra.save` of line `j` (a new one when j is the number of lines): the
     * subtotal becomes quantity x unit price, the post_save receiver may set `precio_compra`
     * on the line's in-memory product (returned, starting from `precioCompra`), and the order's
     * totals are recomputed.
     */
    method GuardarDetalle(j: nat, d: DetalleOrden, precioCompra: Option<int>) returns (p: Option<int>)
      requires j <= |detalles|
      modifies this
      ensures var g := d.(subtotal := d.cantidad * d.precioUnitario);
        && detalles == (if j == |old(detalles)| then old(detalles) + [g] else old(detalles)[j := g])
        && p == ActualizarPrecio(precioCompra, g)
      ensures subtotal == Total(detalles) && total == subtotal
      ensures estado == old(estado) && recepciones == old(recepciones)
    {
      var g := d.(subtotal := d.cantidad * d.precioUnitario);
      if j == |detalles| {
        detalles := detalles + [g];
      } else {
        detalles := detalles[j := g];
      }
      p := ActualizarPrecio(precioCompra, g);
      CalcularTotales();
    }

    /**
     * One pass of the loop of `recibir` over line `i`: the line is saved fully received; then
     * `precio_compra` is read from its freshly loaded product, which raises AttributeError
     * when the receiver did not set it; otherwise the line's ENTRADA is booked into `almacen`.
     * The ghost arguments describe the passes before it: lines `ds[..i]` were received
     * starting from stock `s0` and the movements `m0`.
     */
    method RecibirLinea(i: nat, usuario: UsuarioId, almacen: AlmacenId, db: InventarioDb,
                        ghost ds: seq<DetalleOrden>, ghost s0: StockMap, ghost m0: seq<Movimiento>)
      returns (r: Result<(), CompraError>)
      requires i < |detalles| == |ds| && detalles[i] == ds[i] && db.Valid()
      requires db.movimientos == m0 + Entradas(ds[..i], usuario, almacen, numero)
      requires db.stock == Registrar(s0, Entradas(ds[..i], usuario, almacen, numero))
      modifies this, db
      ensures db.Valid()
      ensures detalles == old(detalles)[i := RecibidoDe(ds[i])]
      ensures subtotal == Total(detalles) && total == subtotal
      ensures estado == old(estado) && recepciones == old(recepciones)
      ensures r.Err? <==> ds[i].cantidad == 0
      ensures r.Err? ==> (r.error == SinPrecioCompra
        && db.stock == old(db.stock) && db.movimientos == old(db.movimientos))
      ensures r.Ok? ==> (db.movimientos == m0 + Entradas(ds[..i + 1], usuario, almacen, numero)
        && db.stock == Registrar(s0, Entradas(ds[..i + 1], usuario, almacen, numero)))
    {
      var d := detalles[i];
      var precioCompra := GuardarDetalle(i, d.(recibido := true, cantidadRecibida := d.cantidad), None);
      if precioCompra.None? {
        return Err(SinPrecioCompra);
      }
      // The attribute now holds the unit price, so the price branch of the loop writes nothing.
      assert ds[..i + 1] == ds[..i] + [ds[i]];
      RecepcionPaso(s0, ds[..i], ds[i], usuario, almacen, numero);
      db.CrearMovimiento(EntradaDe(d, usuario, almacen, numero));
      r := Ok(());
    }

    /**
     * The loop of `recibir`: every line in turn through `RecibirLinea`, stopping at the first
     * line that raises. On success every line is received and has its ENTRADA.
     */
    method RecibirLineas(usuario: UsuarioId, almacen: AlmacenId, db: InventarioDb) returns (r: Result<(), CompraError>)
      requires db.Valid()
      modifies this, db
      ensures db.Valid()
      ensures estado == old(estado) && recepciones == old(recepciones)
      ensures r.Err? ==> (r.error == SinPrecioCompra
        && exists i :: 0 <= i < |old(detalles)| && old(detalles)[i].cantidad == 0)
      ensures r.Ok? ==> forall i :: 0 <= i < |old(detalles)| ==> old(detalles)[i].cantidad > 0
      ensures r.Ok? ==> (detalles == Recibidos(old(detalles))
        && db.movimientos == old(db.movimientos) + Entradas(old(detalles), usuario, almacen, numero)
        && db.stock == Registrar(old(db.stock), Entradas(old(detalles), usuario, almacen, numero))
        && (old(detalles) == [] ==> subtotal == old(subtotal) && total == old(total))
        && (old(detalles) != [] ==> subtotal == Total(detalles) && total == subtotal))
    {
      var ds := detalles;
      ghost var s0 := db.stock;
      ghost var m0 := db.movimientos;
      var i := 0;
      while i < |ds|
        invariant 0 <= i <= |ds| && db.Valid()
        invariant estado == old(estado) && recepciones == old(recepciones)
        invariant RecibidosHasta(detalles, ds, i)
        invariant forall j :: 0 <= j < i ==> ds[j].cantidad > 0
        invariant db.movimientos == m0 + Entradas(ds[..i], usuario, almacen, numero)
        invariant db.stock == Registrar(s0, Entradas(ds[..i], usuario, almacen, numero))
        invariant i == 0 ==> subtotal == old(subtotal) && total == old(total)
        invariant i > 0 ==> subtotal == Total(detalles) && total == subtotal
      {
        ghost var antes := detalles;
        r := RecibirLinea(i, usuario, almacen, db, ds, s0, m0);
        if r.Err? {
          return;
        }
        RecibidosPaso(antes, ds, i);
        i := i + 1;
      }
      assert ds[..i] == ds;
      RecibidosTodos(detalles, ds);
      r := Ok(());
    }

    /**
     * `OrdenCompra.recibir` into `almacen`: a no-op unless APROBADA. Otherwise a reception is
     * recorded, every line is saved fully received, one ENTRADA per line is booked into
     * `almacen`, and the order turns RECIBIDA. A line with quantity 0 makes the loop raise
     * AttributeError, and `transaction.atomic` rolls the whole reception back. The totals are
     * recomputed on every line save, so they stay as they were only for an order without lines.
     */
    method Recibir(usuario: UsuarioId, almacen: AlmacenId, db: InventarioDb) returns (r: Result<(), CompraError>)
      requires db.Valid()
      modifies this, db
      ensures db.Valid()
      ensures old(estado) != Aprobada ==> (r.Ok? && estado == old(estado) && detalles == old(detalles)
        && subtotal == old(subtotal) && total == old(total) && recepciones == old(recepciones)
        && db.stock == old(db.stock) && db.movimientos == old(db.movimientos))
      ensures old(estado) == Aprobada && r.Err? ==> (r.error == SinPrecioCompra
        && (exists i :: 0 <= i < |old(detalles)| && old(detalles)[i].cantidad == 0)
        && estado == old(estado) && detalles == old(detalles)
        && subtotal == old(subtotal) && total == old(total) && recepciones == old(recepciones)
        && db.stock == old(db.stock) && db.movimientos == old(db.movimientos))
      ensures old(estado) == Aprobada && r.Ok? ==> ((forall i :: 0 <= i < |old(detalles)| ==> old(detalles)[i].cantidad > 0)
        && estado == Recibida
        && recepciones == old(recepciones) + [RecepcionCompra(usuario, almacen)]
        && detalles == Recibidos(old(detalles))
        && db.movimientos == old(db.movimientos) + Entradas(old(detalles), usuario, almacen, numero)
        && db.stock == Registrar(old(db.stock), Entradas(old(detalles), usuario, almacen, numero))
        && (old(detalles) == [] ==> subtotal == old(subtotal) && total == old(total))
        && (old(detalles) != [] ==> subtotal == Total(detalles) && total == subtotal))
    {
      if estado != Aprobada {
        return Ok(());
      }
      var detalles0, subtotal0, total0, recepciones0 := detalles, subtotal, total, recepciones;
      var stock0, movimientos0 := db.stock, db.movimientos;
      ghost var ajustes0 := db.ajustes;
      recepciones := recepciones + [RecepcionCompra(usuario, almacen)];
      r := RecibirLineas(usuario, almacen, db);
      if r.Err? {
        detalles, subtotal, total, recepciones := detalles0, subtotal0, total0, recepciones0;
        db.RollbackTodo(stock0, movimientos0, ajustes0);
        return;
      }
      estado := Recibida;
    }
  }
}
