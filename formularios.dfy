/**
 * The validators of almacen/forms.py: `ProductoForm.clean` (price ordering),
 * `ProductoForm.clean_codigo` (code uniqueness) and `MovimientoInventarioForm.clean`
 * (stock check for SALIDA). A Django form keeps its errors and its cleaned data as state;
 * `add_error(field, ...)` records the error and drops that field from the cleaned data.
 */
module Formularios {
  import opened Base
  import opened Inventario

  datatype Problema = MayoristaMayorQueMinorista | CantidadExcedeStock(disponible: int)

  datatype FormError = FormError(campo: string, problema: Problema)

  /** The price-ordering rule: only when both prices are present can they conflict. */
  predicate PreciosEnConflicto(minorista: Option<int>, mayorista: Option<int>)
  {
    minorista.Some? && mayorista.Some? && mayorista.value > minorista.value
  }

  /** A missing price never raises the ordering error; present prices conflict iff mayorista > minorista. */
  lemma PreciosEnConflictoIff(minorista: Option<int>, mayorista: Option<int>)
    ensures minorista.None? || mayorista.None? ==> !PreciosEnConflicto(minorista, mayorista)
    ensures minorista.Some? && mayorista.Some? ==>
      (PreciosEnConflicto(minorista, mayorista) <==> mayorista.value > minorista.value)
  {
  }

  /** The cleaned data and error list of a `ProductoForm` (prices in cents). */
  class ProductoForm {
    var precioMinorista: Option<int>
    var precioMayorista: Option<int>
    var errores: seq<FormError>

    constructor (minorista: Option<int>, mayorista: Option<int>)
      ensures precioMinorista == minorista && precioMayorista == mayorista && errores == []
    {
      precioMinorista := minorista;
      precioMayorista := mayorista;
      errores := [];
    }

    /** `ProductoForm.clean`: a mayorista price above the minorista one is an error on precio_mayorista. */
    method Clean()
      modifies this
      ensures precioMinorista == old(precioMinorista)
      ensures PreciosEnConflicto(old(precioMinorista), old(precioMayorista)) ==>
        errores == old(errores) + [FormError("precio_mayorista", MayoristaMayorQueMinorista)]
        && precioMayorista == None
      ensures !PreciosEnConflicto(old(precioMinorista), old(precioMayorista)) ==>
        errores == old(errores) && precioMayorista == old(precioMayorista)
    {
      if precioMinorista.Some? && precioMayorista.Some? {
        if precioMayorista.value > precioMinorista.value {
          errores := errores + [FormError("precio_mayorista", MayoristaMayorQueMinorista)];
          precioMayorista := None;
        }
      }
    }
  }

  datatype CodigoError = CodigoEnUso

  /** Python truthiness of the optional code: None and "" are both empty. */
  predicate TieneCodigo(codigo: Option<string>)
  {
    codigo.Some? && codigo.value != ""
  }

  /**
   * `ProductoForm.clean_codigo`: `codigos` maps each product id to its stored code and
   * `instancia` is the primary key of the product being edited (None for a new one).
   */
  function CleanCodigo(codigo: Option<string>, codigos: map<ProductoId, Option<string>>, instancia: Option<ProductoId>)
    : (r: Result<Option<string>, CodigoError>)
    ensures r.Ok? ==> r.value == codigo
  {
    if TieneCodigo(codigo) then
      var enUso := set p | p in codigos && codigos[p] == codigo && Some(p) != instancia;
      if enUso != {} then Err(CodigoEnUso) else Ok(codigo)
    else Ok(codigo)
  }

  /** An empty code is accepted without looking at the table. */
  lemma CodigoVacioAceptado(codigos: map<ProductoId, Option<string>>, instancia: Option<ProductoId>)
    ensures CleanCodigo(None, codigos, instancia) == Ok(None)
    ensures CleanCodigo(Some(""), codigos, instancia) == Ok(Some(""))
  {
  }

  /** A non-empty code is rejected exactly when another product (not the edited one) holds it. */
  lemma CodigoRechazadoIff(c: string, codigos: map<ProductoId, Option<string>>, instancia: Option<ProductoId>)
    requires c != ""
    ensures CleanCodigo(Some(c), codigos, instancia).Err? <==>
      exists p :: p in codigos && codigos[p] == Some(c) && Some(p) != instancia
  {
    var enUso := set p | p in codigos && codigos[p] == Some(c) && Some(p) != instancia;
    if exists p :: p in codigos && codigos[p] == Some(c) && Some(p) != instancia {
      var p :| p in codigos && codigos[p] == Some(c) && Some(p) != instancia;
      assert p in enUso;
    }
  }

  /** Non-empty codes are unique across the table. */
  ghost predicate CodigosUnicos(codigos: map<ProductoId, Option<string>>)
  {
    forall p, q :: p in codigos && q in codigos && p != q && TieneCodigo(codigos[p]) ==> codigos[p] != codigos[q]
  }

  /** Storing a code that `clean_codigo` accepted keeps the non-empty codes unique. */
  lemma CleanCodigoKeepsCodesUnique(codigo: Option<string>, codigos: map<ProductoId, Option<string>>, p: ProductoId)
    requires CodigosUnicos(codigos)
    requires CleanCodigo(codigo, codigos, Some(p)).Ok?
    ensures CodigosUnicos(codigos[p := codigo])
  {
    var nuevos := codigos[p := codigo];
    var enUso := set q | q in codigos && codigos[q] == codigo && Some(q) != Some(p);
    assert TieneCodigo(codigo) ==> enUso == {};
    forall a, b | a in nuevos && b in nuevos && a != b && TieneCodigo(nuevos[a])
      ensures nuevos[a] != nuevos[b]
    {
      if a == p {
        assert b !in enUso;
      } else if b == p && TieneCodigo(codigo) {
        assert a !in enUso;
      }
    }
  }

  /** The cleaned data of a `MovimientoInventarioForm` (None where a field failed its own validation). */
  datatype MovimientoData = MovimientoData(
    producto: Option<ProductoId>,
    almacen: Option<AlmacenId>,
    cantidad: Option<nat>,
    tipo: Option<TipoMovimiento>)

  /**
   * The outcome of `MovimientoInventarioForm.clean` on the stock table: Err when it crashes
   * (a missing cantidad compared with `>` raises TypeError), otherwise the error it records
   * on `cantidad`, if any.
   */
  function ErrorDeStock(s: StockMap, d: MovimientoData): (r: Result<Option<FormError>, ()>)
  {
    if d.tipo == Some(Salida) && d.producto.Some? && d.almacen.Some?
       && StockKey(d.producto.value, d.almacen.value) in s
    then
      var disponible := s[StockKey(d.producto.value, d.almacen.value)];
      if d.cantidad.None? then Err(())
      else if d.cantidad.value > disponible then Ok(Some(FormError("cantidad", CantidadExcedeStock(disponible))))
      else Ok(None)
    else Ok(None)
  }

  /** A SALIDA larger than an existing row gets an error on cantidad; no row, no error. */
  lemma ErrorDeStockIff(s: StockMap, m: Movimiento)
    ensures var d := MovimientoData(Some(m.producto), Some(m.almacen), Some(m.cantidad), Some(m.tipo));
      ErrorDeStock(s, d).Ok?
      && (ErrorDeStock(s, d).value.Some? <==> m.tipo == Salida && m.Key() in s && m.cantidad > s[m.Key()])
      && (m.Key() !in s ==> ErrorDeStock(s, d).value.None?)
  {
  }

  /** For SALIDA, the form's check and the model's `clean` reject exactly the same movements. */
  lemma FormAgreesWithModelClean(s: StockMap, m: Movimiento)
    requires m.tipo == Salida
    ensures var d := MovimientoData(Some(m.producto), Some(m.almacen), Some(m.cantidad), Some(m.tipo));
      ErrorDeStock(s, d).value.Some? <==> Clean(s, m).Err?
  {
  }

  class MovimientoInventarioForm {
    var datos: MovimientoData
    var errores: seq<FormError>

    constructor (d: MovimientoData)
      ensures datos == d && errores == []
    {
      datos := d;
      errores := [];
    }

    /** `MovimientoInventarioForm.clean`: Err(()) is the TypeError the comparison raises. */
    method Clean(stock: StockMap) returns (r: Result<(), ()>)
      modifies this
      ensures r.Err? <==> ErrorDeStock(stock, old(datos)).Err?
      ensures r.Err? ==> datos == old(datos) && errores == old(errores)
      ensures r.Ok? && ErrorDeStock(stock, old(datos)).value.Some? ==>
        errores == old(errores) + [ErrorDeStock(stock, old(datos)).value.value]
        && datos == old(datos).(cantidad := None)
      ensures r.Ok? && ErrorDeStock(stock, old(datos)).value.None? ==>
        errores == old(errores) && datos == old(datos)
    {
      var outcome := ErrorDeStock(stock, datos);
      if outcome.Err? {
        return Err(());
      }
      if outcome.value.Some? {
        errores := errores + [outcome.value.value];
        datos := datos.(cantidad := None);
      }
      return Ok(());
    }
  }
}
