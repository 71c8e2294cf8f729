/**
 * The movement views of almacen/views.py: `registrar_movimiento`, `editar_movimiento` and
 * `eliminar_movimiento`, over the ledger of `Inventario.InventarioDb`.
 *
 * `form.is_valid()` on a MovimientoInventarioForm runs the form's `clean` and then the
 * model's `clean` on the instance the form has filled in. When the form's `clean` records
 * its error on `cantidad`, Django removes that field from the cleaned data and leaves the
 * instance's own `cantidad` untouched: None for a new movement, the stored one when editing.
 */
module VistasMovimiento {
  import opened Base
  import opened Inventario
  import opened Formularios

  datatype VistaError =
    | FormularioInvalido
    | Insuficiente(disponible: int)
    | SinRegistroDeStock

  function DatosDe(m: Movimiento): MovimientoData
  {
    MovimientoData(Some(m.producto), Some(m.almacen), Some(m.cantidad), Some(m.tipo))
  }

  /**
   * `is_valid()` as written: Ok(valid) or Err(()) for the TypeError the model's `clean`
   * raises when it compares a row with a missing `cantidad`. `cantidadInstancia` is the
   * instance's own `cantidad` before the form fills it in.
   */
  function IsValidAsWritten(s: StockMap, cantidadInstancia: Option<nat>, m: Movimiento): (r: Result<bool, ()>)
  {
    var formError := ErrorDeStock(s, DatosDe(m)) != Ok(None);
    var cantidad: Option<nat> := if formError then cantidadInstancia else Some(m.cantidad);
    if IsOutflow(m.tipo) && m.Key() in s then
      if cantidad.None? then Err(())
      else Ok(!formError && !(s[m.Key()] < cantidad.value))
    else Ok(!formError)
  }

  /** A new SALIDA larger than an existing row makes `is_valid()` raise instead of reporting the error. */
  lemma RegistrarSalidaGrandeFalla(s: StockMap, m: Movimiento)
    requires m.tipo == Salida && m.Key() in s && s[m.Key()] < m.cantidad
    ensures IsValidAsWritten(s, None, m) == Err(())
  {
  }

  /** The concrete case: one unit on the row, two requested. */
  lemma RegistrarSalidaGrandeEjemplo()
    ensures var m := Movimiento(1, 1, 2, Salida, 1, "");
      IsValidAsWritten(map[StockKey(1, 1) := 1], None, m) == Err(())
  {
    RegistrarSalidaGrandeFalla(map[StockKey(1, 1) := 1], Movimiento(1, 1, 2, Salida, 1, ""));
  }

  /**
   * The validation the two cleans evidently intend: the form is valid exactly when the
   * model's `clean` accepts the posted movement (for SALIDA the form's own check agrees).
   */
  function IsValid(s: StockMap, m: Movimiento): (r: bool)
    ensures r <==> ErrorDeStock(s, DatosDe(m)) == Ok(None) && Clean(s, m).Ok?
    ensures r <==> Clean(s, m).Ok?
  {
    FormAgreesWithModelClean(s, m.(tipo := Salida));
    ErrorDeStockIff(s, m);
    Clean(s, m).Ok?
  }

  /** Outside the crash, `is_valid()` as written decides exactly as `IsValid`; editing never crashes. */
  lemma IsValidAsWrittenAgrees(s: StockMap, cantidadInstancia: Option<nat>, m: Movimiento)
    ensures IsValidAsWritten(s, cantidadInstancia, m).Ok? ==> IsValidAsWritten(s, cantidadInstancia, m).value == IsValid(s, m)
    ensures cantidadInstancia.Some? ==> IsValidAsWritten(s, cantidadInstancia, m).Ok?
  {
    ErrorDeStockIff(s, m);
  }

  // ---------------------------------------------------------------------------------------
  // registrar_movimiento

  /** The view's own SALIDA check after `is_valid()`: an existing row smaller than the quantity. */
  function ChequeoRegistro(s: StockMap, m: Movimiento): (r: Result<(), VistaError>)
    ensures r.Err? <==> !IsValid(s, m) || (m.tipo == Salida && m.Key() in s && s[m.Key()] < m.cantidad)
  {
    if !IsValid(s, m) then Err(FormularioInvalido)
    else if m.tipo == Salida && m.Key() in s && s[m.Key()] < m.cantidad then Err(Insuficiente(s[m.Key()]))
    else Ok(())
  }

  /** After validation the view's own check can no longer fire: only an invalid form is refused. */
  lemma RegistroViewCheckRedundant(s: StockMap, m: Movimiento)
    ensures ChequeoRegistro(s, m) != Err(Insuficiente(Cantidad(s, m.Key())))
    ensures ChequeoRegistro(s, m).Ok? <==> Clean(s, m).Ok?
  {
  }

  /** A registered outflow leaves a row that was non-negative non-negative; a missing row never blocks it. */
  lemma RegistroKeepsRowNonNegative(s: StockMap, m: Movimiento)
    requires ChequeoRegistro(s, m).Ok?
    requires m.Key() in s && s[m.Key()] >= 0
    ensures SaveMovimiento(s, None, m)[m.Key()] >= 0
  {
    CleanKeepsRowNonNegative(s, m);
  }

  lemma RegistroSinFila(s: StockMap, m: Movimiento)
    requires m.Key() !in s
    ensures ChequeoRegistro(s, m).Ok?
    ensures SaveMovimiento(s, None, m)[m.Key()] == m.cantidad * Effect(m.tipo)
  {
  }

  /**
   * `registrar_movimiento` on POST: validate, set the movement's user to the requesting
   * profile, check the stock of a SALIDA and save. A refusal writes nothing.
   */
  method RegistrarMovimiento(db: InventarioDb, posted: Movimiento, usuario: UsuarioId) returns (r: Result<(), VistaError>)
    requires db.Valid()
    modifies db
    ensures db.Valid()
    ensures r == ChequeoRegistro(old(db.stock), posted)
    ensures r.Ok? ==> (db.stock == SaveMovimiento(old(db.stock), None, posted)
      && db.movimientos == old(db.movimientos) + [posted.(usuario := usuario)])
    ensures r.Err? ==> db.stock == old(db.stock) && db.movimientos == old(db.movimientos)
  {
    if !IsValid(db.stock, posted) {
      return Err(FormularioInvalido);
    }
    var movimiento := posted.(usuario := usuario);
    if movimiento.tipo == Salida {
      match db.Fila(movimiento.Key()) {
        case Some(disponible) =>
          if disponible < movimiento.cantidad {
            return Err(Insuficiente(disponible));
          }
        case None =>
      }
    }
    db.CrearMovimiento(movimiento);
    r := Ok(());
  }

  // ---------------------------------------------------------------------------------------
  // editar_movimiento

  /**
   * The view's SALIDA check with `old_*` taken from `anterior`: a changed key is checked like
   * a new movement, an unchanged one by `diferencia`, negated when the old type was ENTRADA.
   */
  function EditCheckWith(s: StockMap, anterior: Movimiento, m: Movimiento): Result<(), VistaError>
  {
    if m.tipo != Salida then Ok(())
    else if m.Key() != anterior.Key() then
      if m.Key() in s && s[m.Key()] < m.cantidad then Err(Insuficiente(s[m.Key()])) else Ok(())
    else
      var diferencia := m.cantidad - anterior.cantidad;
      var diferencia := if anterior.tipo == Entrada then -diferencia else diferencia;
      if m.Key() in s && s[m.Key()] + diferencia < 0 then Err(Insuficiente(s[m.Key()])) else Ok(())
  }

  /**
   * As written the `old_*` values are read after `is_valid()` has copied the posted values
   * onto the same instance, so they are the new values themselves.
   */
  function EditCheckAsWritten(s: StockMap, m: Movimiento): (r: Result<(), VistaError>)
  {
    EditCheckWith(s, m, m)
  }

  /** As written the check only refuses a row that is already negative. */
  lemma EditCheckAsWrittenOnlyNegativeRows(s: StockMap, m: Movimiento)
    ensures EditCheckAsWritten(s, m).Err? <==> m.tipo == Salida && m.Key() in s && s[m.Key()] < 0
  {
  }

  /**
   * Row 5 built by an ENTRADA of 5, edited into a SALIDA of 5: validation and the check as
   * written accept it (also with the stored values as `old_*`). The model's stock, which has no
   * constraint, reaches -5; in the program only the non-negative `Stock.cantidad` column refuses
   * the save, and the user gets the view's generic error instead of the stock message.
   */
  lemma EditCheckCounterexample()
    ensures var k, stored, m := StockKey(1, 1), Movimiento(1, 1, 5, Entrada, 1, ""), Movimiento(1, 1, 5, Salida, 1, "");
      var s := map[k := 5];
      IsValid(s, m) && IsValidAsWritten(s, Some(stored.cantidad), m) == Ok(true)
      && EditCheckAsWritten(s, m).Ok? && EditCheckWith(s, stored, m).Ok?
      && SaveMovimiento(s, Some(stored), m)[k] == -5
  {
  }

  /** The evident intent: refuse a SALIDA whose row would end below zero once the edit is saved. */
  function EditCheck(s: StockMap, stored: Movimiento, m: Movimiento): (r: Result<(), VistaError>)
  {
    if m.tipo == Salida && m.Key() in s && SaveMovimiento(s, Some(stored), m)[m.Key()] < 0
    then Err(Insuficiente(s[m.Key()]))
    else Ok(())
  }

  /** The corrected check refuses a SALIDA exactly when the saved edit would leave its row negative. */
  lemma EditCheckIff(s: StockMap, stored: Movimiento, m: Movimiento)
    requires m.tipo == Salida && m.Key() in s
    ensures EditCheck(s, stored, m).Ok? <==>
      Cantidad(s, m.Key()) - Contribution(stored, m.Key()) - m.cantidad >= 0
  {
    EditNetEffect(s, stored, m);
  }

  /** With a changed key the corrected check agrees with the source's check against the new row. */
  lemma EditCheckAgreesOnNewKey(s: StockMap, stored: Movimiento, m: Movimiento)
    requires m.Key() != stored.Key()
    ensures EditCheck(s, stored, m) == EditCheckWith(s, stored, m)
  {
    EditNetEffect(s, stored, m);
  }

  /**
   * `editar_movimiento` on POST for the stored movement number `i`: validate, check a SALIDA
   * with the corrected check, and save the edit (revert the stored version, apply the new one).
   */
  method EditarMovimiento(db: InventarioDb, i: nat, posted: Movimiento) returns (r: Result<(), VistaError>)
    requires db.Valid() && i < |db.movimientos|
    modifies db
    ensures db.Valid()
    ensures r.Ok? <==> IsValid(old(db.stock), posted) && EditCheck(old(db.stock), old(db.movimientos[i]), posted).Ok?
    ensures r.Ok? ==> (db.stock == SaveMovimiento(old(db.stock), Some(old(db.movimientos[i])), posted)
      && db.movimientos == old(db.movimientos)[i := posted])
    ensures r.Err? ==> db.stock == old(db.stock) && db.movimientos == old(db.movimientos)
  {
    if !IsValid(db.stock, posted) {
      return Err(FormularioInvalido);
    }
    var check := EditCheck(db.stock, db.movimientos[i], posted);
    if check.Err? {
      return check;
    }
    db.EditarMovimiento(i, posted);
    r := Ok(());
  }

  // ---------------------------------------------------------------------------------------
  // eliminar_movimiento

  /** The view refuses to delete a SALIDA whose stock row does not exist. */
  function ChequeoEliminar(s: StockMap, m: Movimiento): (r: Result<(), VistaError>)
    ensures r.Err? <==> m.tipo == Salida && m.Key() !in s
  {
    if m.tipo == Salida && m.Key() !in s then Err(SinRegistroDeStock) else Ok(())
  }

  /**
   * `eliminar_movimiento` on POST: delete movement number `i` unless the refusal applies;
   * the `post_delete` receiver reverts its effect.
   */
  method EliminarMovimiento(db: InventarioDb, i: nat) returns (r: Result<(), VistaError>)
    requires db.Valid() && i < |db.movimientos|
    modifies db
    ensures db.Valid()
    ensures r == ChequeoEliminar(old(db.stock), old(db.movimientos[i]))
    ensures r.Ok? ==> (db.stock == RevertOnDelete(old(db.stock), old(db.movimientos[i]))
      && db.movimientos == old(db.movimientos[..i] + db.movimientos[i + 1..]))
    ensures r.Err? ==> db.stock == old(db.stock) && db.movimientos == old(db.movimientos)
  {
    var m := db.movimientos[i];
    if m.tipo == Salida {
      var fila := db.Fila(m.Key());
      if fila.None? {
        return Err(SinRegistroDeStock);
      }
    }
    db.EliminarMovimiento(i);
    r := Ok(());
  }

  /**
   * Every recorded movement's row exists, so the refusal never applies to a recorded movement
   * and deleting it subtracts exactly its contribution.
   */
  lemma EliminarRecordedNeverRefused(s: StockMap, ms: seq<Movimiento>, i: nat)
    requires forall j :: 0 <= j < |ms| ==> ms[j].Key() in s
    requires i < |ms|
    ensures ChequeoEliminar(s, ms[i]).Ok?
    ensures forall k :: k in s ==> RevertOnDelete(s, ms[i])[k] == s[k] - Contribution(ms[i], k)
  {
  }
}
