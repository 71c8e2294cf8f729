/**
 * The single-origin, single-destination conversion service of almacen/services.py:
 * `convertir_producto` and `revertir_conversion`. The conversion's `producto_origen`,
 * `producto_destino` and per-unit `cantidad_destino` are parameters (the ConversionProducto
 * table does not declare them), and so are the audit record's fields of the same names.
 */
module ConversionServicio {
  import opened Base
  import opened PyText
  import opened Inventario

  /** The conversion as the service reads it. */
  datatype Definicion = Definicion(
    tipoConversion: nat,
    productoOrigen: ProductoId,
    productoDestino: ProductoId,
    cantidadDestino: nat)

  /** The audit record the service writes; its id is its position in the table plus one. */
  datatype Registro = Registro(
    tipoConversion: nat,
    productoOrigen: ProductoId,
    productoDestino: ProductoId,
    cantidadOrigen: nat,
    cantidadDestino: nat,
    almacen: AlmacenId,
    usuario: UsuarioId,
    motivo: string,
    revertido: bool,
    relacionReversion: Option<nat>)

  datatype ServicioError =
    | StockNoExiste(producto: ProductoId)
    | FaltaStock(necesario: nat, disponible: int)
    | YaRevertida

  /** The stock after a conversion: origin minus `cantidad`, destination (created at 0) plus the product. */
  function Convertido(s: StockMap, d: Definicion, almacen: AlmacenId, cantidad: nat): StockMap
  {
    var origen := UpdateStock(s, StockKey(d.productoOrigen, almacen), cantidad, -1);
    UpdateStock(origen, StockKey(d.productoDestino, almacen), cantidad * d.cantidadDestino, 1)
  }

  /** The record `convertir_producto` writes. */
  function RegistroDe(d: Definicion, almacen: AlmacenId, cantidad: nat, usuario: UsuarioId, motivo: string): (r: Registro)
    ensures r.cantidadOrigen == cantidad && r.cantidadDestino == cantidad * d.cantidadDestino
    ensures r.productoOrigen == d.productoOrigen && r.productoDestino == d.productoDestino
    ensures !r.revertido && r.relacionReversion.None?
  {
    Registro(d.tipoConversion, d.productoOrigen, d.productoDestino, cantidad, cantidad * d.cantidadDestino,
             almacen, usuario, motivo, false, None)
  }

  /** The reversal record: products and quantities swapped, linked to the original's id. */
  function Inverso(original: Registro, id: nat, usuario: UsuarioId, motivo: string): (r: Registro)
    ensures r.productoOrigen == original.productoDestino && r.productoDestino == original.productoOrigen
    ensures r.cantidadOrigen == original.cantidadDestino && r.cantidadDestino == original.cantidadOrigen
    ensures r.almacen == original.almacen && r.relacionReversion == Some(id) && !r.revertido
  {
    Registro(original.tipoConversion, original.productoDestino, original.productoOrigen,
             original.cantidadDestino, original.cantidadOrigen, original.almacen, usuario,
             "Reversión de #" + NatToString(id) + ": " + motivo, false, Some(id))
  }

  /** Reversing twice swaps back: the products and quantities of the original. */
  lemma InversoInvolutivo(original: Registro, id: nat, id': nat, usuario: UsuarioId, motivo: string)
    ensures var back := Inverso(Inverso(original, id, usuario, motivo), id', usuario, motivo);
      back.productoOrigen == original.productoOrigen && back.productoDestino == original.productoDestino
      && back.cantidadOrigen == original.cantidadOrigen && back.cantidadDestino == original.cantidadDestino
  {
  }

  /** The stock after a reversal of `original`: its origin row back up, its destination row down. */
  function Revertido(s: StockMap, original: Registro): StockMap
  {
    var origen := UpdateStock(s, StockKey(original.productoOrigen, original.almacen), original.cantidadOrigen, 1);
    UpdateStock(origen, StockKey(original.productoDestino, original.almacen), original.cantidadDestino, -1)
  }

  /**
   * Converting and then reverting the record it wrote finds both rows and is the identity on
   * the stock; the only trace is a destination row created at 0.
   */
  lemma ConvertirRevertirRestaura(s: StockMap, d: Definicion, almacen: AlmacenId, cantidad: nat,
                                  usuario: UsuarioId, motivo: string)
    requires StockKey(d.productoOrigen, almacen) in s
    ensures var c := Convertido(s, d, almacen, cantidad);
      StockKey(d.productoOrigen, almacen) in c && StockKey(d.productoDestino, almacen) in c
    ensures var r := Revertido(Convertido(s, d, almacen, cantidad), RegistroDe(d, almacen, cantidad, usuario, motivo));
      r.Keys == s.Keys + {StockKey(d.productoDestino, almacen)}
      && forall k :: Cantidad(r, k) == Cantidad(s, k)
  {
  }

  /** The RegistroConversion table as the service sees it. */
  class RegistrosServicio {
    var registros: seq<Registro>

    constructor ()
      ensures registros == []
    {
      registros := [];
    }
  }

  /**
   * `convertir_producto`: the origin row must exist and hold `cantidad`; then the origin is
   * lowered, the destination raised, and the record written. Returns the record's id.
   */
  method ConvertirProducto(db: InventarioDb, tabla: RegistrosServicio, d: Definicion, almacen: AlmacenId,
                           cantidad: nat, usuario: UsuarioId, motivo: string)
    returns (r: Result<nat, ServicioError>)
    requires db.Valid()
    modifies db, tabla
    ensures db.Valid() && db.movimientos == old(db.movimientos)
    ensures r.Ok? <==> (StockKey(d.productoOrigen, almacen) in old(db.stock)
      && old(db.stock)[StockKey(d.productoOrigen, almacen)] >= cantidad)
    ensures r.Err? ==> db.stock == old(db.stock) && tabla.registros == old(tabla.registros)
    ensures r.Ok? ==> db.stock == Convertido(old(db.stock), d, almacen, cantidad)
    ensures r.Ok? ==> (tabla.registros == old(tabla.registros) + [RegistroDe(d, almacen, cantidad, usuario, motivo)]
      && r.value == |tabla.registros|)
  {
    var kOrigen := StockKey(d.productoOrigen, almacen);
    var fila := db.Fila(kOrigen);
    if fila.None? {
      return Err(StockNoExiste(d.productoOrigen));
    }
    if fila.value < cantidad {
      return Err(FaltaStock(cantidad, fila.value));
    }
    var cantidadDestino := cantidad * d.cantidadDestino;
    db.AjustarStock(kOrigen, -(cantidad as int));
    db.AjustarStock(StockKey(d.productoDestino, almacen), cantidadDestino);
    tabla.registros := tabla.registros + [RegistroDe(d, almacen, cantidad, usuario, motivo)];
    r := Ok(|tabla.registros|);
  }

  /**
   * `revertir_conversion` of the record at position `i` (id `i + 1`): refused when already
   * reverted; otherwise the linked inverse record is written, both rows are read with
   * `Stock.objects.get` (a missing row raises and the atomic block rolls everything back),
   * the original's quantities are undone, and the original is marked. Returns the new id.
   */
  method RevertirConversion(db: InventarioDb, tabla: RegistrosServicio, i: nat, usuario: UsuarioId, motivo: string)
    returns (r: Result<nat, ServicioError>)
    requires db.Valid() && i < |tabla.registros|
    modifies db, tabla
    ensures db.Valid() && db.movimientos == old(db.movimientos)
    ensures old(tabla.registros[i].revertido) ==> r == Err(YaRevertida)
    ensures var o := old(tabla.registros[i]);
      r.Ok? <==> (!o.revertido && StockKey(o.productoOrigen, o.almacen) in old(db.stock)
        && StockKey(o.productoDestino, o.almacen) in old(db.stock))
    ensures r.Err? ==> db.stock == old(db.stock) && tabla.registros == old(tabla.registros)
    ensures r.Ok? ==> db.stock == Revertido(old(db.stock), old(tabla.registros[i]))
    ensures r.Ok? ==> (tabla.registros == old(tabla.registros)[i := old(tabla.registros[i]).(revertido := true)]
        + [Inverso(old(tabla.registros[i]), i + 1, usuario, motivo)]
      && r.value == |tabla.registros|)
  {
    var original := tabla.registros[i];
    if original.revertido {
      return Err(YaRevertida);
    }
    var s0 := db.stock;
    ghost var a0 := db.ajustes;
    var previos := tabla.registros;
    tabla.registros := tabla.registros + [Inverso(original, i + 1, usuario, motivo)];
    var id := |tabla.registros|;
    var kOrigen := StockKey(original.productoOrigen, original.almacen);
    if db.Fila(kOrigen).None? {
      tabla.registros := previos;
      return Err(StockNoExiste(original.productoOrigen));
    }
    db.AjustarStock(kOrigen, original.cantidadOrigen);
    var kDestino := StockKey(original.productoDestino, original.almacen);
    if db.Fila(kDestino).None? {
      db.Rollback(s0, a0);
      tabla.registros := previos;
      return Err(StockNoExiste(original.productoDestino));
    }
    db.AjustarStock(kDestino, -(original.cantidadDestino as int));
    tabla.registros := tabla.registros[i := original.(revertido := true)];
    r := Ok(id);
  }
}
