# A verified model of an ERP for Paraguayan small businesses

The system is a Django web application. It runs a shop's stock across warehouses, its sales and
purchases, its cash registers, its document numbering, and the state of its electronic invoices.
This project models, in Dafny, the parts of it that compute and change state. The model covers:

- **Stock** (`inventario.dfy`, `formularios.dfy`, `vistas_movimiento.dfy`). A stock movement is
  an ENTRADA, SALIDA, AJUSTE_FALTANTE or AJUSTE_SOBRANTE. Saving one applies its signed quantity to the
  (product, warehouse) stock row. Editing a movement reverts the stored version and applies the
  new one. Deleting it reverts it. The form and model `clean` checks, and the three movement
  views, are modelled over a ledger class `Inventario.InventarioDb`.
- **Transfers** (`traslados.dfy`, `vistas_traslado.dfy`). A transfer gets a generated
  reference. Its details are validated. The status receiver runs after each detail save. The
  two views send the requested quantities out of the origin warehouse and record what
  arrived; each reception files an ENTRADA at the destination.
- **Product conversions** (`conversiones.dfy`, `conversion_servicio.dfy`). The conversion views
  and the conversion service move stock between a product and its components, and they revert
  a conversion.
- **Cash registers, sales and purchases** (`caja.dfy`, `ventas.dfy`, `compras.dfy`).
  - A register opens, closes and records movements.
  - A sale's totals are computed. Finalizing it takes the stock out and enters the cash.
    Cancelling it puts both back.
  - A purchase order's totals, approval and reception are modelled; reception enters stock;
    a line of quantity 0 makes it fail and roll back.
- **Document numbering** (`secuencias.dfy`). The per-branch sequences generate zero-padded
  numbers, and the initial sequences are created.
- **Electronic invoice status** (`facturacion.dfy`): the sent, accepted and error transitions.
- **Helpers** (`ubicaciones.dfy`, `safe_decimal.dfy`, `intcomma.dfy`, `form_filters.dfy`):
  - the location lookups over the loaded department / district / city / neighbourhood data;
  - `safe_decimal`;
  - the `pyg_intcomma` filter;
  - the `add_attrs` filter.
- **The purchase-order page script** (`ordenes.dfy`, `js_numeros.dfy`). The page renumbers
  cloned formset rows, resets them, and computes subtotals in the browser.
- **Support modules**:
  - `base.dfy`: Option, Result and sums;
  - `pytext.dfy`: Python's `str`/`int` conversions, `strip` and `split`;
  - `decimales.dfy`: Python `Decimal` with `quantize` and `ROUND_HALF_UP`.

Amounts of money and prices are integers (guaraníes, or cents). The decimal helpers work
on exact decimals, coefficient times a power of ten. Stock quantities are unbounded integers. The database is held
as values: `map`s keyed by (product, warehouse) and `seq`s of saved rows. Objects that the
source updates in place, such as a register, a sale, a purchase order, a transfer, a sequence
table or an electronic document, are classes whose methods state the whole new state. The
clock and the logged-in user are parameters.

## Model

| member | source | states |
|---|---|---|
| Base.SumAppend | ventas/models.py:95 | `sum` of a list with one more subtotal is the old sum plus that subtotal |
| Base.SumUpdate | ventas/models.py:95 | replacing one subtotal changes the sum by the difference |
| Base.SumNonNegative | compras/models.py:55 | a sum of non-negative subtotals is non-negative |
| Base.Invertida | almacen/models.py:169-170 | a table read under a descending `fecha` ordering lists its rows last saved first: element i is the element i places from the end |
| Inventario.Effect | almacen/models.py:177-181 | the effect of a movement type is +1 or -1 |
| Inventario.OutflowIffNegativeEffect | almacen/models.py:177-181 | the types `clean` guards (SALIDA, AJUSTE_FALTANTE) are exactly those with effect -1; ENTRADA/SALIDA and SOBRANTE/FALTANTE have opposite effects |
| Inventario.UpdateStock | almacen/models.py:225-234 | only the row for the key changes, it is created when missing, and it ends at its old quantity (0 if absent) plus cantidad x effect |
| Inventario.SaveMovimiento | almacen/models.py:189-234 | definition of `save` on the stock table (revert the stored version, then apply the new one); its contract is `CreateTouchesOnlyItsKey`, `EditNetEffect` and `EditBackRestores` |
| Inventario.CreateTouchesOnlyItsKey | almacen/models.py:196-223 | saving a new movement adds at most its own key and moves every key by exactly that movement's contribution |
| Inventario.EditNetEffect | almacen/models.py:189-223 | saving an edit leaves every key at old quantity minus the stored movement's contribution plus the new one's; only the two movements' keys can gain a row |
| Inventario.EditBackRestores | almacen/models.py:189-223 | editing a movement and editing it back restores every quantity |
| Inventario.RevertOnDelete | almacen/models.py:256-268 | deleting never adds or removes a row and changes nothing when the movement's row is missing |
| Inventario.CreateThenDeleteRestores | almacen/models.py:196-268 | create then delete restores every existing quantity; a row created at 0 is the only trace |
| Inventario.Clean | almacen/models.py:240-254 | definition of the model's `clean`; its contract is `CleanRejectsIff` and `CleanKeepsRowNonNegative` |
| Inventario.CleanKeepsRowNonNegative | almacen/models.py:240-254 | a movement `clean` accepts keeps a non-negative existing row non-negative |
| Inventario.CleanRejectsIff | almacen/models.py:240-254 | `clean` rejects exactly an outflow larger than an existing row, reports that row's quantity, and never rejects when the row is missing |
| Inventario.RegistrarPorClave | almacen/models.py:217-234 | creating a run of movements moves each key by the run's net effect there |
| Inventario.NetEffectDistinct | almacen/models.py:217-234 | with pairwise distinct keys, a key moves by its own movement's cantidad x effect alone |
| Inventario.InventarioDb.constructor | almacen/models.py:151-167 | a fresh ledger holds the given stock and no movements, and is accounted |
| Inventario.InventarioDb.Fila | almacen/models.py:246-249 | `filter(...).first()` returns the row's quantity exactly when the row exists |
| Inventario.InventarioDb.CrearMovimiento | almacen/models.py:196-234 | creating a movement appends it and applies its effect; stock stays equal to direct writes plus net effect of recorded movements |
| Inventario.InventarioDb.EditarMovimiento | almacen/models.py:189-223 | saving an edited movement replaces it and reverts the stored version before applying the new one, keeping the account |
| Inventario.InventarioDb.EliminarMovimiento | almacen/models.py:256-268 | deleting removes the movement and reverts its effect only where its row exists, keeping the account |
| Inventario.InventarioDb.AjustarStock | almacen/models.py:225-234 | a direct row write moves only that row by delta (created at 0), records no movement, keeps the account |
| Inventario.InventarioDb.CrearTodos | almacen/models.py:196-234 | creating movements in turn appends them all and leaves stock as folding each creation |
| Inventario.InventarioDb.Rollback | almacen/models.py:183-184 | an atomic block that raised leaves the Stock table as it was when the block began |
| Formularios.PreciosEnConflicto | almacen/forms.py:86-97 | definition of the price check in `ProductoForm.clean`; its contract is `PreciosEnConflictoIff` |
| Formularios.PreciosEnConflictoIff | almacen/forms.py:86-97 | a missing price never conflicts; two present prices conflict exactly when mayorista > minorista |
| Formularios.ProductoForm.constructor | almacen/forms.py:86-89 | the form starts with the cleaned prices and no errors |
| Formularios.ProductoForm.Clean | almacen/forms.py:86-97 | on a conflict exactly one error is added on precio_mayorista and that field leaves the cleaned data; otherwise nothing changes |
| Formularios.CleanCodigo | almacen/forms.py:99-107 | an accepted code is returned unchanged |
| Formularios.CodigoVacioAceptado | almacen/forms.py:99-101 | None and "" are accepted without a uniqueness check |
| Formularios.CodigoRechazadoIff | almacen/forms.py:101-106 | a non-empty code is rejected exactly when some other product (not the edited instance) holds it |
| Formularios.CleanCodigoKeepsCodesUnique | almacen/forms.py:99-107 | storing an accepted code keeps non-empty codes unique across products |
| Formularios.ErrorDeStock | almacen/forms.py:231-246 | definition of the stock check in `MovimientoInventarioForm.clean`; its contract is `ErrorDeStockIff` and `FormAgreesWithModelClean` |
| Formularios.ErrorDeStockIff | almacen/forms.py:231-246 | for complete data, an error on cantidad is recorded exactly for a SALIDA above an existing row; no row means no error |
| Formularios.FormAgreesWithModelClean | almacen/forms.py:231-246 | for SALIDA, the form's check and the model's `clean` reject the same movements |
| Formularios.MovimientoInventarioForm.constructor | almacen/forms.py:231-236 | the form starts with the cleaned data and no errors |
| Formularios.MovimientoInventarioForm.Clean | almacen/forms.py:231-246 | raises exactly when the comparison meets a missing cantidad; otherwise adds the stock error (dropping cantidad) or changes nothing |
| Traslados.CountPrefix | almacen/models.py:391-393 | the count of references with the prefix never exceeds the number of references |
| Traslados.Referencia | almacen/models.py:386-395 | definition of the generated reference; its contract is `ReferenciaSpec`, `ReferenciaNueva`, `MismoSufijo` and `PrimeraReferencia` |
| Traslados.ReferenciaSpec | almacen/models.py:386-395 | a non-empty referencia is kept; an empty one becomes `TR-<fecha>-` and at least three digits denoting the day's count plus one |
| Traslados.CountPrefixPositive | almacen/models.py:391-393 | a reference carrying the prefix is counted |
| Traslados.ReferenciaNueva | almacen/models.py:386-395 | when the day's references are numbered 1..n with n their count, the generated one is new |
| Traslados.MismoSufijo | almacen/models.py:394 | two references of one day are equal only when their numbers are |
| Traslados.PrimeraReferencia | almacen/models.py:394 | the first reference of a day is `TR-<fecha>-001` |
| Traslados.Cargar | almacen/models.py:412-415 | loading a row keeps it as the object's row |
| Traslados.CargarTodos | almacen/models.py:412-415 | loading the detail rows gives one fresh object per row, in order |
| Traslados.HasChanged | almacen/models.py:417-424 | definition of `has_changed`; its contract is `HasChangedSpec` |
| Traslados.HasChangedSpec | almacen/models.py:417-424 | a freshly loaded object reports no change; checking both fields is checking either |
| Traslados.CleanDetalle | almacen/models.py:441-447 | definition of `DetalleTraslado.clean`; its contract is `CleanDetalleIff` |
| Traslados.CleanDetalleIff | almacen/models.py:441-447 | a detail passes exactly when solicitada >= enviada >= recibida, and the enviada bound is reported first |
| Traslados.EstadoTrasGuardar | almacen/models.py:426-440 | only PENDIENTE can move, and it moves to EN_PROCESO exactly when every detail has enviada == solicitada |
| Traslados.ActualizarEstado | almacen/signals.py:7-23 | definition of the status receiver; its contract is `ActualizarEstadoSpec`, `NadaEnviadoCompleta` and `ActualizarEstadoRecargado` |
| Traslados.ActualizarEstadoSpec | almacen/signals.py:7-23 | nothing changes without a reported change; else COMPLETADO (stamped) when every sent detail is received, winning over EN_PROCESO when everything is sent |
| Traslados.NadaEnviadoCompleta | almacen/signals.py:20-23 | with nothing sent, any reported change completes the transfer, vacuously |
| Traslados.ActualizarEstadoRecargado | almacen/signals.py:9-13 | over freshly loaded details the receiver never changes estado or date |
| Traslados.UsuarioEntrada | almacen/signals.py:68 | the movement's user is the responsable when set, else the solicitante |
| Traslados.MotivoEntrada | almacen/signals.py:69 | definition of the motivo `Traslado <referencia> desde <origen>`; its contract is `EntradaDe` and `EntradaCorregida` |
| Traslados.EntradaDe | almacen/signals.py:60-70 | one ENTRADA of cantidad_recibida into the destination exactly when recibida > 0 and it changed; none otherwise |
| Traslados.EntradaDeSinCambio | almacen/signals.py:62 | saving a detail as loaded creates no movement |
| Traslados.EntradaCorregida | almacen/signals.py:60-70 | the corrected receiver: one ENTRADA exactly when recibida rose, of the rise alone, into the destination |
| Traslados.Traslado.constructor | almacen/models.py:370-395 | a new transfer is PENDIENTE with no responsable or completion date and its referencia filled in |
| Traslados.Traslado.GuardarDetalle | almacen/models.py:426-440 | saving a detail writes its row, files the live receiver's ENTRADA if any, and applies the PENDIENTE to EN_PROCESO hook; header fields unchanged |
| VistasMovimiento.RegistrarSalidaGrandeFalla | almacen/views.py:320-321 | as written, validating a new SALIDA larger than its existing row raises instead of reporting the error |
| VistasMovimiento.RegistrarSalidaGrandeEjemplo | almacen/views.py:320-321 | one unit on the row and two requested makes `is_valid()` raise |
| VistasMovimiento.IsValid | almacen/forms.py:231-246 | the intended validation: the form's stock check finds nothing and the model's `clean` accepts, which is the model's `clean` alone |
| VistasMovimiento.IsValidAsWritten | almacen/forms.py:231-246 | definition of `is_valid()` as written, with the TypeError of the model's `clean`; its contract is `IsValidAsWrittenAgrees` and `RegistrarSalidaGrandeFalla` |
| VistasMovimiento.IsValidAsWrittenAgrees | almacen/views.py:376-377 | outside the crash the as-written validation decides as `IsValid`; an edit, whose instance has a cantidad, never crashes |
| VistasMovimiento.ChequeoRegistro | almacen/views.py:321-339 | the view refuses exactly an invalid form or a SALIDA above an existing row |
| VistasMovimiento.RegistroViewCheckRedundant | almacen/views.py:326-339 | after validation the view's own SALIDA check never fires; a registration goes through exactly when `clean` accepts |
| VistasMovimiento.RegistroKeepsRowNonNegative | almacen/views.py:326-341 | a registered movement keeps a non-negative existing row non-negative |
| VistasMovimiento.RegistroSinFila | almacen/views.py:326-341 | a missing row never blocks, and the new row holds cantidad x effect |
| VistasMovimiento.RegistrarMovimiento | almacen/views.py:318-343 | with the intended validation `IsValid` in place of the crashing `is_valid()`, the outcome is the check's; success saves the movement with the requesting user; a refusal writes nothing |
| VistasMovimiento.EditCheckAsWritten | almacen/views.py:380-418 | definition of the edit view's stock check as written; its contract is `EditCheckAsWrittenOnlyNegativeRows` and `EditCheckCounterexample` |
| VistasMovimiento.EditCheckAsWrittenOnlyNegativeRows | almacen/views.py:380-418 | as written the edit check refuses only a SALIDA whose row is already negative |
| VistasMovimiento.EditCheckCounterexample | almacen/views.py:380-420 | an ENTRADA of 5 on a row of 5 edited into a SALIDA of 5 passes validation and the view's check; the model's stock, which has no constraint, reaches -5, while in the program only the `PositiveIntegerField` on `Stock.cantidad` refuses the save and the user sees the generic error instead of the stock message |
| VistasMovimiento.EditCheckIff | almacen/views.py:387-418 | the corrected check accepts a SALIDA exactly when the row, minus the stored contribution and the new quantity, stays >= 0 |
| VistasMovimiento.EditCheckAgreesOnNewKey | almacen/views.py:394-404 | with a changed key the corrected check is the source's check against the new row |
| VistasMovimiento.EditarMovimiento | almacen/views.py:372-422 | with the corrected check in place of the as-written one, an edit is saved exactly when valid and that check accepts, reverting the stored version and applying the new one; a refusal writes nothing |
| VistasMovimiento.ChequeoEliminar | almacen/views.py:444-453 | deletion is refused exactly for a SALIDA without a stock row |
| VistasMovimiento.EliminarMovimiento | almacen/views.py:439-455 | the outcome is that check's; success removes the movement and reverts its effect; a refusal writes nothing |
| VistasMovimiento.EliminarRecordedNeverRefused | almacen/views.py:444-455 | a recorded movement always has its row, so deleting it is never refused and subtracts exactly its contribution |
| Conversiones.DeTipoMembers | almacen/views.py:681 | `componentes.filter(tipo=t)` keeps exactly the components of that type |
| Conversiones.AplicarKeys | almacen/views.py:698-715 | the per-component writes add rows only for the components' keys (get_or_create at 0) |
| Conversiones.AplicarAt | almacen/views.py:698-715 | each row moves by the factor times the total quantity the components charge to it |
| Conversiones.DemandaUnica | almacen/views.py:687 | with distinct products a component's row is charged exactly `componente.cantidad` |
| Conversiones.DemandaAusente | almacen/views.py:698-715 | a row no component names is charged nothing |
| Conversiones.Ejecutado | almacen/views.py:696-715 | definition of the stock after an execution; its contract is `EjecutadoPorClave`, `EjecutadoKeys`, `EjecutadoOrigen` and `EjecutarConversion` |
| Conversiones.EjecutadoPorClave | almacen/views.py:696-715 | after an execution each row moved by cantidad times (destination demand minus origin demand) |
| Conversiones.EjecutadoKeys | almacen/views.py:696-715 | an execution adds exactly the rows of its components |
| Conversiones.DosPasosKeys | almacen/views.py:696-715 | two rounds of writes add the rows of both component lists |
| Conversiones.EjecutadoOrigen | almacen/views.py:698-704 | an origin row drops by `componente.cantidad * cantidad` when no destination shares its product |
| Conversiones.IdaVuelta | almacen/views.py:696-715 | consuming and producing, then giving back and taking out, leaves each row where it was |
| Conversiones.Revertido | almacen/views.py:770-789 | definition of the stock after a reversal; its contract is `RevertirPorClave`, `RevertirKeys`, `EjecutarRevertirRestaura` and `RevertirConversion` |
| Conversiones.RevertirPorClave | almacen/views.py:770-789 | executing then reverting restores every row's quantity |
| Conversiones.ClavesPresentes | almacen/views.py:783-787 | once a component list is written every one of its rows exists |
| Conversiones.RevertirKeys | almacen/views.py:774-789 | after an execution the reversal never misses a destination row, and it adds no row beyond the components' |
| Conversiones.EjecutarRevertirRestaura | almacen/views.py:670-803 | execute then revert leaves every quantity unchanged; the only trace is destination rows created at 0 |
| Conversiones.HistorialConversiones.constructor | almacen/views.py:718 | the RegistroConversion table starts empty |
| Conversiones.AjustarComponentes | almacen/views.py:698-715 | the write loop leaves the stock equal to the per-component writes, movements untouched |
| Conversiones.RetirarComponentes | almacen/views.py:783-789 | the destination loop of a reversal reports the first missing row exactly when one is missing, else makes every write |
| Conversiones.EjecutarConversion | almacen/views.py:670-727 | refused exactly when some origin row is missing or short, changing nothing; otherwise origins consumed, destinations produced and one record appended |
| Conversiones.MotivoReversion | almacen/views.py:797 | definition of the motivo `Reversión de #<id>`; its contract is `RevertirConversion` |
| Conversiones.RevertirConversion | almacen/views.py:761-810 | an already reverted record is refused; otherwise success exactly when every destination row exists, with the stock reverted, the linked record appended and the original marked; a failure rolls everything back |
| ConversionServicio.RegistroDe | almacen/services.py:48-57 | the audit record holds `cantidad` and `cantidad * cantidad_destino`, the two products, not reverted |
| ConversionServicio.Inverso | almacen/services.py:80-90 | the reversal record swaps products and quantities and links to the original |
| ConversionServicio.InversoInvolutivo | almacen/services.py:80-90 | inverting twice gives back the original products and quantities |
| ConversionServicio.Convertido | almacen/services.py:33-45 | definition of the stock after `convertir_producto`; its contract is `ConvertirRevertirRestaura` and `ConvertirProducto` |
| ConversionServicio.Revertido | almacen/services.py:92-105 | definition of the stock after `revertir_conversion`; its contract is `ConvertirRevertirRestaura` and `RevertirConversion` |
| ConversionServicio.ConvertirRevertirRestaura | almacen/services.py:7-111 | converting and then reverting its record finds both rows and restores every quantity |
| ConversionServicio.RegistrosServicio.constructor | almacen/services.py:48 | the audit table starts empty |
| ConversionServicio.ConvertirProducto | almacen/services.py:6-59 | succeeds exactly when the origin row exists and holds `cantidad`; then origin lowered, destination raised and the record appended with its id returned; otherwise nothing changes |
| ConversionServicio.RevertirConversion | almacen/services.py:64-111 | an already reverted record is refused; otherwise success exactly when both rows exist, with the stock undone, the inverse record appended and the original marked; a failure rolls everything back |
| Cajas.Signo | caja/models.py:93-96 | an INGRESO adds its amount and every other tipo subtracts it |
| Cajas.NetoAppend | caja/models.py:88-98 | each saved movement moves the net amount by its signed monto |
| Cajas.IngresoEgresoNetoCero | caja/models.py:93-96 | an INGRESO and an EGRESO of the same amount cancel out |
| Cajas.CleanMovimiento | caja/models.py:82-86 | definition of `MovimientoCaja.clean`; its contract is `CleanMovimientoIff` |
| Cajas.CleanMovimientoIff | caja/models.py:82-86 | `clean` accepts a movement exactly when its monto is positive |
| Cajas.Caja.constructor | caja/models.py:14-19 | a new register is CERRADA with both balances 0 and no dates |
| Cajas.Caja.Abrir | caja/models.py:37-47 | opening an ABIERTA register is refused and changes nothing; otherwise it is ABIERTA with the new responsable, both balances at saldo_inicial and the opening date set |
| Cajas.Caja.Cerrar | caja/models.py:49-56 | closing a CERRADA register is refused; otherwise it is CERRADA with the closing date set; the balances never change |
| Cajas.Caja.Aplicar | caja/models.py:92-98 | the balance moves by the signed amount and stays opening balance plus the net of the movements since opening |
| Cajas.LibroCaja.constructor | caja/models.py:58 | the movement table starts empty |
| Cajas.LibroCaja.Guardar | caja/models.py:88-98 | saving stores the row and moves its register's balance by the signed amount, nothing else on the register changes |
| Cajas.UltimoDeVenta | ventas/models.py:155 | `filter(venta=v).first()` under `-fecha` finds the latest movement of the sale, and none exactly when the sale has none |
| Ventas.Total | ventas/models.py:92-96 | definition of the sum in `calcular_totales`; its contract is `TotalSpec` |
| Ventas.Subtotales | ventas/models.py:95 | one subtotal per detail, in order |
| Ventas.TotalSpec | ventas/models.py:92-96 | the total of no details is 0, adding a detail adds its subtotal, replacing one moves the total by the difference |
| Ventas.CleanDetalle | ventas/models.py:208-223 | definition of `DetalleVenta.clean`; its contract is `CleanDetalleIff` |
| Ventas.CleanDetalleIff | ventas/models.py:208-223 | `clean` accepts exactly a positive quantity and price and, on a FINALIZADA sale, no existing row holding less than the quantity |
| Ventas.PrimerFaltante | ventas/models.py:109-116 | the first detail whose row is missing or short, with every earlier one covered; none exactly when all are covered |
| Ventas.MotivoVenta | ventas/models.py:143 | definition of the motivo `Venta <numero>`; its contract is `IngresoVenta`, `DeMotivoFinalizada` and `FinalizarCancelarRestauraStock` |
| Ventas.IngresoVenta | ventas/models.py:125-133 | the INGRESO of `finalizar` is the sale's total on its register, linked to the sale |
| Ventas.MotivoCancelacion | ventas/models.py:179 | definition of the motivo `Cancelación Venta <numero>`; its contract is `Anulacion` |
| Ventas.Anulacion | ventas/models.py:157-165 | the cancelling EGRESO has the amount and register of the movement it undoes |
| Ventas.SalidaDe | ventas/models.py:136-144 | definition of the SALIDA `finalizar` files for one detail; its contract is `Salidas` and `FinalizarDosDetallesMismaFila` |
| Ventas.Salidas | ventas/models.py:136-144 | one SALIDA per detail, with its product, warehouse and quantity |
| Ventas.ReversaDe | ventas/models.py:172-180 | definition of the ENTRADA `cancelar` files for one movement found; its contract is `Reversas` and `ReversasNetEffect` |
| Ventas.Reversas | ventas/models.py:172-180 | one ENTRADA per movement found, with its product, warehouse and quantity |
| Ventas.DeMotivo | ventas/models.py:168-170 | definition of `filter(motivo=...)` over the movement table under `-fecha`, newest saved first (almacen/models.py:169-170); its contract is `DeMotivoConcat`, `DeMotivoExtremos` and `DeMotivoFinalizada` |
| Ventas.DeMotivoConcat | ventas/models.py:168-170 | the motivo filter of a table saved in two runs lists the matches of the later run first, then those of the earlier one |
| Ventas.DeMotivoExtremos | ventas/models.py:168-170 | the filter lists rows that all match newest first and drops rows that none match |
| Ventas.NetEffectInvertida | ventas/models.py:172-180 | creating a run of movements in the reverse order moves every stock row by the same amount |
| Ventas.ReversasNetEffect | ventas/models.py:172-180 | mirroring SALIDAs with ENTRADAs negates their net effect on every row |
| Ventas.SalidasReversasRestauran | ventas/models.py:136-180 | registering SALIDAs and then their mirrors, newest first, leaves every stock quantity as it was |
| Ventas.DeMotivoFinalizada | ventas/models.py:136-144 | when no earlier movement has the sale's motivo, `cancelar` finds exactly the SALIDAs `finalizar` recorded, the last one first |
| Ventas.FinalizarCancelarRestauraStock | ventas/models.py:99-184 | finalising and then cancelling restores every stock row, given no earlier movement carries the sale's motivo |
| Ventas.FinalizarCancelarRestauraSaldo | ventas/models.py:125-165 | the INGRESO of `finalizar` is the movement `cancelar` then finds, and its EGRESO nets it to zero on the same register |
| Ventas.FinalizarNoNegativo | ventas/models.py:108-144 | with details on distinct rows each row drops by exactly its detail's quantity and stays non-negative |
| Ventas.FinalizarDosDetallesMismaFila | ventas/models.py:108-116 | the check is per detail: two details of 3 on a row of 5 both pass `finalizar`'s check; the model's stock, which has no constraint, reaches -1, while in the program only the `PositiveIntegerField` on `Stock.cantidad` refuses the second save and the view shows its generic error |
| Ventas.Venta.constructor | ventas/models.py:76-78 | a new sale is BORRADOR with no details and total 0 |
| Ventas.Venta.CalcularTotales | ventas/models.py:92-96 | the total becomes the sum of the details' subtotals, nothing else changes |
| Ventas.Venta.GuardarDetalle | ventas/models.py:200-206 | the detail is stored with subtotal = cantidad x precio_unitario and the total recomputed |
| Ventas.Venta.Finalizar | ventas/models.py:99-144 | refused unless BORRADOR, then unless the register is ABIERTA, then at the first uncovered detail, changing nothing; otherwise FINALIZADA, one INGRESO of the total, one SALIDA per detail |
| Ventas.Venta.Cancelar | ventas/models.py:148-184 | refused unless FINALIZADA; otherwise an EGRESO against the sale's latest cash movement if any, one ENTRADA per movement with the sale's motivo, newest movement first as the `-fecha` queryset lists them, and CANCELADA |
| Compras.Total | compras/models.py:52-57 | definition of the sum in `calcular_totales`; its contract is `TotalSpec` and `RecibirConservaTotal` |
| Compras.Subtotales | compras/models.py:55 | one subtotal per line, in order |
| Compras.TotalSpec | compras/models.py:52-57 | the total of no lines is 0, adding a line adds its subtotal, replacing one moves the total by the difference |
| Compras.CleanDetalle | compras/models.py:121-126 | definition of `DetalleOrden.clean`; its contract is `CleanDetalleIff` |
| Compras.CleanDetalleIff | compras/models.py:121-126 | `clean` accepts exactly a positive quantity and price, and reports the quantity first |
| Compras.ActualizarPrecio | compras/models.py:145-153 | the receiver sets the in-memory product's `precio_compra` to the unit price exactly when the line is received with a positive quantity, and leaves it as it was otherwise |
| Compras.PrecioCompraLeido | compras/models.py:83 | on a freshly loaded product the attribute `recibir` compares exists after the line's save exactly when the quantity is positive, and then equals the unit price, so lines 84-85 never write |
| Compras.RecibidoDe | compras/models.py:78-80 | a received line has cantidad_recibida = cantidad, recibido set and its subtotal recomputed, nothing else changed |
| Compras.Recibidos | compras/models.py:76-80 | every line received, in order |
| Compras.MotivoRecepcion | compras/models.py:94 | definition of the motivo `Recepción de OC-<numero>`; its contract is `EntradaDe` |
| Compras.EntradaDe | compras/models.py:88-95 | the ENTRADA of a line is its product and quantity in the receiving warehouse |
| Compras.Entradas | compras/models.py:76-95 | one ENTRADA per line, in order |
| Compras.RecibirStock | compras/models.py:66-98 | with one line per product, each product's row in the warehouse rises by its line's quantity and every other row is untouched |
| Compras.RecepcionPaso | compras/models.py:76-95 | one more line extends the ENTRADAs and the stock by that line |
| Compras.RecibidosPaso | compras/models.py:76-80 | receiving line n keeps the first n received and the rest as they were |
| Compras.RecibidosTodos | compras/models.py:76-80 | after the loop every line is received |
| Compras.RecibirConservaTotal | compras/models.py:113-119 | receiving lines saved with subtotal = cantidad x precio keeps the order total |
| Compras.OrdenCompra.constructor | compras/models.py:32-42 | a new order is BORRADOR with no lines and totals 0 |
| Compras.OrdenCompra.CalcularTotales | compras/models.py:52-57 | subtotal is the sum of the line subtotals and total equals it |
| Compras.OrdenCompra.Aprobar | compras/models.py:59-63 | BORRADOR becomes APROBADA; every other state is left alone |
| Compras.OrdenCompra.GuardarDetalle | compras/models.py:113-119 | the line is stored with subtotal = cantidad x precio, the receiver runs on it, and the totals are recomputed |
| Compras.OrdenCompra.RecibirLinea | compras/models.py:76-95 | one pass of the loop saves line i received; it raises the AttributeError exactly when the line's quantity is 0, with the stock and ledger untouched, and otherwise books its ENTRADA |
| Compras.OrdenCompra.RecibirLineas | compras/models.py:76-95 | the loop fails only with the AttributeError and only when some line has quantity 0; when it finishes every quantity is positive, every line is received and one ENTRADA per line is booked into the warehouse |
| Compras.OrdenCompra.Recibir | compras/models.py:66-98 | a no-op unless APROBADA; when a line has quantity 0 the AttributeError rolls the whole atomic block back (order, lines, reception, stock and ledger as before); otherwise one reception recorded, all lines received, ENTRADAs booked and RECIBIDA |
| Secuencias.CodigoCompleto | empresa/models.py:175-176 | definition of `get_codigo_completo`; its contract is `CodigoCompletoInyectivo`, `NumeroSpec` and `CompletadaSpec` |
| Secuencias.CodigoCompletoInyectivo | empresa/models.py:175-176 | with no '-' in branch codes the full code determines the branch and point codes |
| Secuencias.Numero | empresa/models.py:255-259 | definition of the generated number; its contract is `NumeroSpec` and `GenerarDosVeces` |
| Secuencias.NumeroSpec | empresa/models.py:255-259 | a number is the full code, '-', and at least seven digits denoting the counter; distinct counters give distinct numbers |
| Secuencias.Completada | empresa/models.py:239-247 | definition of the defaults `save` fills in; its contract is `CompletadaSpec` |
| Secuencias.CompletadaSpec | empresa/models.py:239-247 | `save` fills an empty prefijo with the full code and an empty formato with the fixed format, keeps everything else, and saving twice is saving once |
| Secuencias.CrearPaso | empresa/models.py:183-191 | each `get_or_create` keeps an existing row and creates a missing one with counter 1 |
| Secuencias.TablaSecuencias.constructor | empresa/models.py:196 | the sequence table starts empty |
| Secuencias.TablaSecuencias.Guardar | empresa/models.py:239-247 | the row stored is the completed one, and every row keeps the fixed format and a non-empty prefijo |
| Secuencias.TablaSecuencias.GenerarNumero | empresa/models.py:249-259 | the number handed out formats the counter before the call, and the counter goes up by exactly one |
| Secuencias.TablaSecuencias.CrearSecuenciasIniciales | empresa/models.py:179-192 | afterwards the point has a row per type, existing rows are untouched, new rows start at 1, a point with all rows is left alone, and the point's rows are returned keyed by their four (point, type) keys |
| Secuencias.GenerarDosVeces | empresa/models.py:249-259 | two successive calls hand out the numbers of two consecutive counters, which differ |
| Facturacion.Codigo | facturacion/models.py:7-17 | definition of the code each ESTADOS choice stores; its contract is `CodigosSpec` |
| Facturacion.DesdeCodigo | facturacion/models.py:7-17 | definition of reading a stored code back as its choice; its contract is `CodigosSpec` |
| Facturacion.CodigosSpec | facturacion/models.py:7-17 | the six stored codes are exactly the accepted ones, each naming its own state, and every state's code reads back as that state |
| Facturacion.DocumentoElectronico.constructor | facturacion/models.py:17-27 | a new document is NO_GENERADO with no attempts and nothing recorded |
| Facturacion.DocumentoElectronico.MarcarComoEnviadoAsWritten | facturacion/models.py:40-44 | as written `timezone.now()` raises after `estado` is set: the attempt count and the stored row do not change |
| Facturacion.DocumentoElectronico.MarcarComoAceptadoAsWritten | facturacion/models.py:46-50 | as written the call raises after `estado` and `respuesta_set` are set, before the save |
| Facturacion.DocumentoElectronico.MarcarComoEnviado | facturacion/models.py:40-44 | with Django's clock: ENVIADO, the send date set, one more attempt, everything else kept, and saved |
| Facturacion.DocumentoElectronico.MarcarComoAceptado | facturacion/models.py:46-50 | ACEPTADO with the response and the acceptance date, everything else kept, and saved |
| Facturacion.DocumentoElectronico.MarcarComoError | facturacion/models.py:52-55 | from any state ERROR with the error text, attempts untouched, and saved |
| Facturacion.EnviarDesdeNuevo | facturacion/models.py:40-44 | a new document sent as written stays NO_GENERADO with 0 attempts in the row; with Django's clock it is ENVIADO with 1 |
| Facturacion.ReintentoTrasError | facturacion/models.py:40-55 | send, reject, send again: ENVIADO with two attempts, the last send's date and the error kept |
| SafeDecimal.SafeDecimal | ventas/utils.py:3-20 | the result is 0.00 for None, and otherwise 0.00 or a Decimal with exactly the requested fractional digits |
| SafeDecimal.SafeDecimalCero | ventas/utils.py:7-20 | None and text `Decimal()` refuses give 0.00 |
| SafeDecimal.SafeDecimalTextoVacio | ventas/utils.py:14-20 | "" and "abc" are not numbers and give 0.00 |
| SafeDecimal.SafeDecimalRedondea | ventas/utils.py:11-17 | a convertible value keeps its value when it has no extra digits; otherwise it is rounded to the nearest coefficient, ties away from zero, and no other coefficient is nearer |
| SafeDecimal.QuantizeCerca | ventas/utils.py:17 | `quantize` with ROUND_HALF_UP keeps an exact value and otherwise rounds to the nearest coefficient, ties away from zero |
| SafeDecimal.ParseDosComaTres | ventas/utils.py:14 | "2.345" reads as 2345 x 10^-3 |
| SafeDecimal.ParseMenosDosComaTres | ventas/utils.py:14 | "-2.345" reads as -2345 x 10^-3 |
| SafeDecimal.SafeDecimalEmpate | ventas/utils.py:17 | ROUND_HALF_UP: 2.345 gives 2.35 and -2.345 gives -2.35 |
| SafeDecimal.SafeDecimalEntero | ventas/utils.py:14-17 | an integer keeps its value and gets the requested zero digits |
| SafeDecimal.SafeDecimalIdempotente | ventas/utils.py:11-17 | applied to its own result it gives an equal Decimal, the same one unless the first call fell back to 0.00 |
| Decimales.Quantize | ventas/utils.py:17 | the quantized decimal has exactly the requested exponent |
| Decimales.MitadArriba | ventas/utils.py:17 | definition of ROUND_HALF_UP on an integer quotient; its contract is `MitadArribaCerca`, `MitadArribaUnico` and `QuantizeRedondea` |
| Decimales.MitadArribaCerca | ventas/utils.py:17 | ROUND_HALF_UP picks a multiple within half a step of the value, a tie away from zero, with the sign kept |
| Decimales.MitadArribaUnico | ventas/utils.py:17 | no other multiple is strictly nearer than the rounded one |
| Decimales.QuantizeRedondea | ventas/utils.py:17 | `quantize` with dropped digits rounds the coefficient half up at their weight, and no other coefficient is nearer |
| Decimales.QuantizeExacto | ventas/utils.py:17 | without digits to drop `quantize` keeps the value |
| Decimales.QuantizeIdempotente | ventas/utils.py:17 | quantizing twice to the same exponent is quantizing once |
| Decimales.HaciaCeroAcota | ventas/templatetags/filtros_paraguay.py:8 | truncation toward zero keeps the sign and drops less than one unit |
| Decimales.Trunc | ventas/templatetags/filtros_paraguay.py:8 | definition of `int()` of a decimal; its contract is `HaciaCeroAcota`, `TruncAcota` and `TruncExacto` |
| Decimales.TruncAcota | ventas/templatetags/filtros_paraguay.py:8 | `int()` of a decimal with fractional digits is its integer part toward zero |
| Decimales.TruncExacto | ventas/templatetags/filtros_paraguay.py:8 | `int()` of a decimal without fractional digits is its value |
| Decimales.ParseDecimal | ventas/utils.py:14 | definition of `Decimal(str)`; its contract is `ParseDecimalDeEntero`, `ParseSinSignoDigitos`, `ParseDecimalSinDigitos`, `ParseDecimalNegado`, `ParseDecimalConGuiones` and `ParseDecimalDirecto` |
| Decimales.ParseDecimalDeEntero | ventas/utils.py:14 | `Decimal(str(i))` is i with exponent 0 |
| Decimales.ParseSinSignoDigitos | ventas/utils.py:14 | a plain run of digits parses to its value with exponent 0 |
| Decimales.ParseDecimalSinDigitos | ventas/utils.py:14-19 | text without digits, such as "", raises InvalidOperation |
| Decimales.ParseDecimalNegado | ventas/utils.py:14 | a leading '-' negates the coefficient and fails exactly when the unsigned text fails |
| Decimales.ParseDecimalConGuiones | ventas/utils.py:14 | underscores are dropped: "1_000" reads as 1000 |
| Decimales.ParseDecimalDirecto | ventas/utils.py:14 | on stripped text without underscores `Decimal()` reads the signed literal itself |
| FiltrosParaguay.AEntero | ventas/templatetags/filtros_paraguay.py:8 | definition of `int(value)`, with None for ValueError and TypeError; its contract is `PygIntcommaSpec`, `PygIntcommaTexto` and `PygIntcommaSinCambio` |
| FiltrosParaguay.PygIntcomma | ventas/templatetags/filtros_paraguay.py:6-11 | the value comes back unchanged exactly when `int()` refuses it |
| FiltrosParaguay.SinPuntosConcat | ventas/templatetags/filtros_paraguay.py:9 | removing the separators distributes over concatenation |
| FiltrosParaguay.SinPuntosDeDigitos | ventas/templatetags/filtros_paraguay.py:9 | digits have no separator to remove |
| FiltrosParaguay.Agrupar | ventas/templatetags/filtros_paraguay.py:9 | definition of the grouping in `f"{value:,}"`; its contract is `AgruparSinPuntos`, `AgruparPosiciones` and `ConPuntosSpec` |
| FiltrosParaguay.AgruparSinPuntos | ventas/templatetags/filtros_paraguay.py:9 | grouping only inserts separators: removing them gives the digits back |
| FiltrosParaguay.AgruparPosiciones | ventas/templatetags/filtros_paraguay.py:9 | the grouped digits have one '.' per full group after the first, exactly at every fourth position from the right, and digits elsewhere |
| FiltrosParaguay.ConPuntos | ventas/templatetags/filtros_paraguay.py:9 | definition of `f"{int(value):,}".replace(",", ".")`; its contract is `ConPuntosSpec`, `AgruparSinPuntos` and `AgruparPosiciones` |
| FiltrosParaguay.ConPuntosSpec | ventas/templatetags/filtros_paraguay.py:9 | removing the '.'s gives `str(n)`, only a negative starts with '-', digits are grouped in threes from the right, and a separator appears exactly from magnitude 1000 |
| FiltrosParaguay.PygIntcommaSpec | ventas/templatetags/filtros_paraguay.py:7-9 | an int-convertible value is shown as `int(value)` grouped with '.' |
| FiltrosParaguay.PygIntcommaTexto | ventas/templatetags/filtros_paraguay.py:8 | a string that reads as an integer is formatted like that integer |
| FiltrosParaguay.PygIntcommaSinCambio | ventas/templatetags/filtros_paraguay.py:10-11 | "", "abc", "1.5" and None come back as they were |
| FiltrosParaguay.PygIntcommaEjemplo | ventas/templatetags/filtros_paraguay.py:9 | 1234567 becomes "1.234.567" and -1234 becomes "-1.234" |
| FormFilters.AddAttrs | almacen/templatetags/form_filters.py:6-14 | raises exactly when some item does not split in two; otherwise the widget's attributes with the parsed ones on top |
| FormFilters.Parsear | almacen/templatetags/form_filters.py:11-13 | definition of the loop over the items; its contract is `ParsearFalla`, `ParsearDosPartes`, `ParsearClaves` and `ParsearUltimo` |
| FormFilters.ParsearError | almacen/templatetags/form_filters.py:12 | an item that does not split in two makes the whole parse fail |
| FormFilters.ParsearFalla | almacen/templatetags/form_filters.py:11-13 | parsing fails exactly when some item does not split into two parts |
| FormFilters.ParsearDosPartes | almacen/templatetags/form_filters.py:12 | on success every item split into two parts |
| FormFilters.ParsearClaves | almacen/templatetags/form_filters.py:11-13 | on success the keys are exactly the stripped keys of the items |
| FormFilters.ParsearUltimo | almacen/templatetags/form_filters.py:11-13 | each key holds the stripped value of the last item naming it |
| FormFilters.ClaveValorSinEspacios | almacen/templatetags/form_filters.py:13 | keys and values carry no surrounding whitespace |
| FormFilters.AddAttrsVacio | almacen/templatetags/form_filters.py:11-12 | an empty argument is one empty item, which raises |
| FormFilters.SplitDos | almacen/templatetags/form_filters.py:12 | text with one separator splits into its two sides |
| FormFilters.SplitClase | almacen/templatetags/form_filters.py:12 | "class=form-control" splits into "class" and "form-control" |
| FormFilters.SplitId | almacen/templatetags/form_filters.py:12 | " id = x" splits into " id " and " x" |
| FormFilters.StripId | almacen/templatetags/form_filters.py:13 | `strip()` of " id " and " x" gives "id" and "x", and keeps unspaced text |
| FormFilters.ParsearPar | almacen/templatetags/form_filters.py:11-13 | two well-formed items give a map of their keys to their values |
| FormFilters.AddAttrsEjemplo | almacen/templatetags/form_filters.py:11-13 | "class=form-control, id = x" gives class and id, stripped |
| Ubicaciones.Listar | empresa/services/ubicaciones.py:23-26 | one entry per node, in order, with its code as text and its name |
| Ubicaciones.Ruta | empresa/services/ubicaciones.py:28-95 | definition of the nested search shared by the lookups; its contract is `RutaExiste`, `RutaPrimero`, `RutaNinguno` and `RutaUnica` |
| Ubicaciones.GetDepartamentos | empresa/services/ubicaciones.py:23-26 | definition of `get_departamentos`; its contract is `Listar` |
| Ubicaciones.GetDistritos | empresa/services/ubicaciones.py:28-34 | definition of `get_distritos`; its contract is `GetDistritosSpec` and `CodigoComoTexto` |
| Ubicaciones.GetCiudades | empresa/services/ubicaciones.py:36-44 | definition of `get_ciudades`; its contract is `ListadoNombreSpec` and `RutaUnica` |
| Ubicaciones.GetBarrios | empresa/services/ubicaciones.py:46-56 | definition of `get_barrios`; its contract is `ListadoNombreSpec` |
| Ubicaciones.GetNombreDepartamento | empresa/services/ubicaciones.py:58-63 | definition of `get_nombre_departamento`; its contract is `ListadoNombreSpec` |
| Ubicaciones.GetNombreDistrito | empresa/services/ubicaciones.py:65-72 | definition of `get_nombre_distrito`; its contract is `ListadoNombreSpec` and `NombreDistritoDeListado` |
| Ubicaciones.GetNombreCiudad | empresa/services/ubicaciones.py:74-83 | definition of `get_nombre_ciudad`; its contract is `ListadoNombreSpec` |
| Ubicaciones.GetNombreBarrio | empresa/services/ubicaciones.py:85-95 | definition of `get_nombre_barrio`; its contract is `ListadoNombreSpec` |
| Ubicaciones.RutaExiste | empresa/services/ubicaciones.py:28-96 | the nested search finds a node exactly when a chain with the path's codes exists, and the node carries the last code |
| Ubicaciones.RutaPrimero | empresa/services/ubicaciones.py:28-34 | one level down the search returns the first node with the code |
| Ubicaciones.RutaNinguno | empresa/services/ubicaciones.py:28-96 | a code no node of the level has finds nothing |
| Ubicaciones.GetDistritosSpec | empresa/services/ubicaciones.py:28-34 | `get_distritos` lists the districts of the first matching department and gives [] when none matches |
| Ubicaciones.CodigoComoTexto | empresa/services/ubicaciones.py:28-34 | codes compare as `str()`: the number 1 and the string "1" find the same department |
| Ubicaciones.Listado | empresa/services/ubicaciones.py:28-56 | definition of the list a `get_*` lookup returns; its contract is `ListadoNombreSpec` and `GetDistritosSpec` |
| Ubicaciones.Nombre | empresa/services/ubicaciones.py:58-96 | definition of the name a `get_nombre_*` lookup returns; its contract is `ListadoNombreSpec` and `NombreDistritoDeListado` |
| Ubicaciones.ListadoNombreSpec | empresa/services/ubicaciones.py:36-96 | deeper lookups give [] and "" unless every level matches, and with a full match list the children of, and name, the node found |
| Ubicaciones.RutaUnica | empresa/services/ubicaciones.py:36-56 | with unique codes the search below a department stays in that department |
| Ubicaciones.NombreDistritoDeListado | empresa/services/ubicaciones.py:65-72 | with unique codes the district name is the name `get_distritos` lists for that code, and "" when none is listed |
| PyText.IsSpace | almacen/templatetags/form_filters.py:13 | definition of the whitespace `strip()` removes; its contract is `StripShape`, `StripNoSpace` and `ParseIntEmpty` |
| PyText.Strip | almacen/templatetags/form_filters.py:13 | definition of `str.strip()`; its contract is `StripShape` and `StripNoSpace` |
| PyText.StripShape | almacen/templatetags/form_filters.py:13 | `strip()` removes only surrounding whitespace and leaves none at either end |
| PyText.StripNoSpace | almacen/templatetags/form_filters.py:13 | `strip()` keeps text that neither starts nor ends with whitespace |
| PyText.NatToString | ventas/templatetags/filtros_paraguay.py:9 | definition of `str(n)`, with digits and no leading zero in its own ensures; its contract is `NatToStringValue`, `NatToStringInjective`, `NatToStringShort` and `IntToString` |
| PyText.NatToStringValue | ventas/templatetags/filtros_paraguay.py:9 | `str(n)` spells the value n |
| PyText.NatToStringInjective | ventas/templatetags/filtros_paraguay.py:9 | different numbers print differently |
| PyText.NatToStringShort | ventas/templatetags/filtros_paraguay.py:9 | a number prints in at most three digits exactly when it is below 1000 |
| PyText.IntToString | ventas/templatetags/filtros_paraguay.py:9 | `str(i)` starts with '-' exactly for a negative i |
| PyText.ZeroPad | almacen/models.py:394 | definition of `:03d` and `:07d`; its contract is `ZeroPadShape` and `ZeroPadInjective` |
| PyText.ZeroPadShape | almacen/models.py:394 | `:03d` (and `:07d`) pads to at least the width with digits that still denote the number |
| PyText.ZeroPadInjective | empresa/models.py:255-259 | padding to a fixed width keeps distinct numbers distinct |
| PyText.ParseInt | ventas/templatetags/filtros_paraguay.py:8 | definition of `int(str)`; its contract is `ParseIntDigits`, `ParseIntOfIntToString` and `ParseIntEmpty` |
| PyText.ParseIntDigits | ventas/templatetags/filtros_paraguay.py:8 | `int()` of a stripped, optionally negated run of digits is the number it spells |
| PyText.ParseIntOfIntToString | ventas/templatetags/filtros_paraguay.py:8 | `int(str(i)) == i` |
| PyText.ParseIntEmpty | ventas/templatetags/filtros_paraguay.py:8-10 | `int("")` and `int("abc")` raise ValueError |
| PyText.Split | almacen/templatetags/form_filters.py:11-12 | `split` always gives at least one piece |
| PyText.Join | almacen/templatetags/form_filters.py:11-12 | reference definition of the inverse of `split`, joining with the separator; its contract is `SplitJoin` |
| PyText.SplitJoin | almacen/templatetags/form_filters.py:11-12 | the pieces hold no separator and joining them gives the text back |
| JsNumeros.Producto | compras/static/js/compras/ordenes.js:64 | `cantidad * precio` is the exact product: coefficients multiply and exponents add |
| JsNumeros.QuantizeSigno | compras/static/js/compras/ordenes.js:65 | rounding a product to hundredths keeps its sign or gives zero |
| JsNumeros.TrimStart | compras/static/js/compras/ordenes.js:62-63 | definition of the leading-whitespace skip of `parseFloat`, with no JavaScript space left in front in its own ensures; its contract is `ParseFloatEspacios` and `ParseFloatNegativo` |
| JsNumeros.Literal | compras/static/js/compras/ordenes.js:62-63 | definition of the longest decimal literal `parseFloat` reads; its contract is `LiteralCentesimos`, `LiteralDeCentesimos` and `ParseFloatNegativo` |
| JsNumeros.LiteralCentesimos | compras/static/js/compras/ordenes.js:62-63 | reading `digits . two digits` gives the number they spell, with exponent -2 |
| JsNumeros.LiteralDeCentesimos | compras/static/js/compras/ordenes.js:62-63 | the hundredths text of `q` starts with no sign or space, and its literal reads as `q` hundredths |
| JsNumeros.ParseFloat | compras/static/js/compras/ordenes.js:62-63 | definition of `parseFloat`; its contract is `ParseFloatCentesimos`, `ParseFloatMenosCentesimos`, `ParseFloatPrefijo`, `ParseFloatNegativo`, `ParseFloatEspacios` and `NumeroSinDigitos` |
| JsNumeros.ParseFloatCentesimos | compras/static/js/compras/ordenes.js:62-65 | `parseFloat` of the text of `q` hundredths gives `q` hundredths |
| JsNumeros.ParseFloatMenosCentesimos | compras/static/js/compras/ordenes.js:62-65 | with a '-' in front it reads back negated |
| JsNumeros.ParseFloatFixed2 | compras/static/js/compras/ordenes.js:62-65 | `parseFloat(x.toFixed(2))` is `x` rounded half up to hundredths: the subtotal written reads back as the rounded product |
| JsNumeros.Fixed2 | compras/static/js/compras/ordenes.js:65 | definition of `toFixed(2)`; its contract is `Fixed2Forma`, `CentesimosDosDigitos` and `ParseFloatFixed2` |
| JsNumeros.Fixed2Forma | compras/static/js/compras/ordenes.js:65 | `toFixed(2)` always ends in '.' and two digits |
| JsNumeros.CentesimosDosDigitos | compras/static/js/compras/ordenes.js:65 | the hundredths are written with exactly two digits whose value is the hundredths |
| JsNumeros.Numero | compras/static/js/compras/ordenes.js:62-63 | definition of `parseFloat(x) || 0`; its contract is `NumeroSinDigitos` and `ParseFloatEspacios` |
| JsNumeros.NumeroSinDigitos | compras/static/js/compras/ordenes.js:62-63 | text without leading digits ("" or "abc") is NaN, and `|| 0` turns it into 0 |
| JsNumeros.ParseFloatPrefijo | compras/static/js/compras/ordenes.js:62-63 | a number followed by other text reads as the number ("12abc" is 12) |
| JsNumeros.ParseFloatNegativo | compras/static/js/compras/ordenes.js:62-63 | leading space is skipped and a sign is read (" -0.5" is -0.5) |
| JsNumeros.ParseFloatEspacios | compras/static/js/compras/ordenes.js:62-63 | JavaScript's own whitespace is skipped (U+FEFF before 5 reads 5), while U+001C, which Python would skip, makes NaN and so 0 |
| Ordenes.Primera | compras/static/js/compras/ordenes.js:20-29 | a match the regular expression search returns is at or after the start and really matches |
| Ordenes.PrimeraSpec | compras/static/js/compras/ordenes.js:20-29 | the search returns the leftmost match, and nothing only when no position matches |
| Ordenes.PrefijoForma | compras/static/js/compras/ordenes.js:20-29 | `form-` and `id_form-` start with a letter, not a digit or '-', that occurs nowhere else in them |
| Ordenes.CoincidenciaLocal | compras/static/js/compras/ordenes.js:20-29 | a match before a copy of the prefix cannot reach past it, so it survives a rewrite after that copy |
| Ordenes.SustituirForma | compras/static/js/compras/ordenes.js:20-29 | rewriting a match puts the prefix, the new digits and '-' in place of the old digits |
| Ordenes.PrimeraDesde | compras/static/js/compras/ordenes.js:20-29 | the leftmost match is `k` when `k` matches and nothing before it does |
| Ordenes.SustituirPrimera | compras/static/js/compras/ordenes.js:20-29 | after the rewrite the first match is where it was, now ending after the new digits, with the text around it unchanged |
| Ordenes.Renumerar | compras/static/js/compras/ordenes.js:20-29 | definition of `replace(regex, ...)` without the g flag; its contract is `RenumerarEn`, `RenumerarPrimera`, `RenumerarLee` and `RenumerarDosVeces` |
| Ordenes.RenumerarEn | compras/static/js/compras/ordenes.js:20-29 | `replace` without the g flag rewrites the first match only |
| Ordenes.RenumerarPrimera | compras/static/js/compras/ordenes.js:20-29 | the renumbered string has its first match at the same place, with the text before and after kept |
| Ordenes.RenumerarDigitos | compras/static/js/compras/ordenes.js:20-29 | the renumbered string carries the decimal digits of `index` right after the prefix |
| Ordenes.RenumerarLeeEn | compras/static/js/compras/ordenes.js:20-29 | with the first match at `k`, the renumbered string's first match carries `index` |
| Ordenes.RenumerarLee | compras/static/js/compras/ordenes.js:20-29 | renumbering reads back: the first match of the result carries `index` |
| Ordenes.RenumerarDosVeces | compras/static/js/compras/ordenes.js:20-29 | renumbering twice is renumbering once with the last index |
| Ordenes.RenumerarNoVacio | compras/static/js/compras/ordenes.js:22-29 | a non-empty id or `htmlFor` stays non-empty, so the `if` tests answer the same after renumbering |
| Ordenes.Renumerada | compras/static/js/compras/ordenes.js:17-32 | definition of the row `updateFormIndexes` leaves; its contract is `RenumeradaSpec`, `RenumeradaDosVeces` and `UpdateFormIndexes` |
| Ordenes.UpdateFormIndexes | compras/static/js/compras/ordenes.js:17-32 | the two forEach loops leave the row renumbered to `index` field by field and label by label |
| Ordenes.ReindexadoRenumerar | compras/static/js/compras/ordenes.js:20-29 | a string without a match is unchanged; with one, its first match now carries `index` |
| Ordenes.RenumeradaSpec | compras/static/js/compras/ordenes.js:17-32 | renumbering keeps fields and labels in place with their values and checked states, reindexes every name, id and `htmlFor`, and leaves an empty id or `htmlFor` empty |
| Ordenes.RenumeradaDosVeces | compras/static/js/compras/ordenes.js:17-32 | renumbering a renumbered row gives the original renumbered to the last index |
| Ordenes.Buscar | compras/static/js/compras/ordenes.js:47-51 | a field `querySelector('[id$=...]')` returns is at or after the start and its id ends with the suffix |
| Ordenes.BuscarSpec | compras/static/js/compras/ordenes.js:47-51 | the query returns the first field in document order whose id ends with the suffix, and nothing only when none does |
| Ordenes.BuscarIds | compras/static/js/compras/ordenes.js:47-51 | the query depends only on the ids, so earlier assignments to values do not move later queries |
| Ordenes.SufijosDistintos | compras/static/js/compras/ordenes.js:47-51 | no id ends with two suffixes whose last two letters differ |
| Ordenes.CincoSufijos | compras/static/js/compras/ordenes.js:47-51 | no id ends with two of `-producto`, `-cantidad`, `-precio_unitario`, `-subtotal`, `-DELETE` |
| Ordenes.CincoDistintos | compras/static/js/compras/ordenes.js:47-51 | the five queries of the reset find five different fields |
| Ordenes.Limpiar | compras/static/js/compras/ordenes.js:47-51 | definition of the reset of a cloned row; its contract is `LimpiarEn` and `LimpiarSpec` |
| Ordenes.LimpiarEn | compras/static/js/compras/ordenes.js:47-51 | with the five fields found, exactly those five change: four values and one checked state |
| Ordenes.LimpiarSpec | compras/static/js/compras/ordenes.js:47-51 | the reset throws exactly when one of the five fields is missing; otherwise names, ids and labels are kept and the five queries read '', '1', '0.00', '0.00' and unchecked |
| Ordenes.Clon | compras/static/js/compras/ordenes.js:40-51 | definition of the row `cloneRow` appends; its contract is `ClonSpec` and `Formset.CloneRow` |
| Ordenes.ClonSpec | compras/static/js/compras/ordenes.js:40-51 | the clone has the template's fields, every name, id and label renumbered to the new index, and the five reset values |
| Ordenes.Importe | compras/static/js/compras/ordenes.js:62-64 | definition of `(parseFloat(cantidad) || 0) * (parseFloat(precio) || 0)`; its contract is `RecalcularEn` and `RecalcularSpec` |
| Ordenes.Recalcular | compras/static/js/compras/ordenes.js:62-65 | definition of one row's recomputation; its contract is `RecalcularEn`, `RecalcularSpec` and `RecalcularIdempotente` |
| Ordenes.RecalcularEn | compras/static/js/compras/ordenes.js:62-65 | with the three fields found, only the subtotal field changes, and only its value |
| Ordenes.RecalcularSpec | compras/static/js/compras/ordenes.js:61-66 | one row's recomputation throws exactly when a field is missing; otherwise quantity and price are kept and the subtotal reads back as their product rounded to hundredths |
| Ordenes.RecalcularIdempotente | compras/static/js/compras/ordenes.js:61-66 | recomputing a recomputed row changes nothing |
| Ordenes.Subtotales | compras/static/js/compras/ordenes.js:59-67 | the pass leaves as many rows as it found |
| Ordenes.Aplicar | compras/static/js/compras/ordenes.js:61-66 | writing the recomputations while they succeed leaves as many rows |
| Ordenes.Recalculos | compras/static/js/compras/ordenes.js:61-66 | one recomputation per row |
| Ordenes.RecalculoEn | compras/static/js/compras/ordenes.js:61-66 | recomputation `i` is that of row `i` on its own |
| Ordenes.CompletasRecalculos | compras/static/js/compras/ordenes.js:61-66 | every row has its fields exactly when every recomputation succeeds |
| Ordenes.Escribir | compras/static/js/compras/ordenes.js:61-66 | writing a successful recomputation in place moves the pass on by one row |
| Ordenes.AplicarHasta | compras/static/js/compras/ordenes.js:61-66 | once a recomputation fails or the rows run out, the rows so far are the pass's result |
| Ordenes.SubtotalesCons | compras/static/js/compras/ordenes.js:59-67 | the pass recomputes the first row and goes on with the rest, or stops at it and leaves everything |
| Ordenes.SubtotalesIdempotente | compras/static/js/compras/ordenes.js:59-67 | recomputing all subtotals a second time changes nothing |
| Ordenes.Contiene | compras/static/js/compras/ordenes.js:77 | definition of `String.prototype.includes`; its contract is `ContieneAlFinal` |
| Ordenes.DisparaCalculo | compras/static/js/compras/ordenes.js:77 | definition of the input listener's name filter; its contract is `ContieneAlFinal` and `Formset.OnInput` |
| Ordenes.ContieneAlFinal | compras/static/js/compras/ordenes.js:77 | a name that ends with `cantidad` or `precio_unitario` passes the `includes` filter |
| Ordenes.Formset.constructor | compras/static/js/compras/ordenes.js:12-13 | the counter starts at the TOTAL_FORMS value, so the two agree (`Sincronizado`), and the subtotals are computed once, by the call on line 83 |
| Ordenes.Formset.CalcularSubtotales | compras/static/js/compras/ordenes.js:59-67 | the rows become the pass's result, the result says whether every row had its fields, and counter and TOTAL_FORMS are unchanged |
| Ordenes.Formset.PasarFilas | compras/static/js/compras/ordenes.js:60-66 | the forEach writes each recomputation in place and stops at the first row that throws |
| Ordenes.Formset.RecalcularFila | compras/static/js/compras/ordenes.js:62-65 | the row at the loop's turn is recomputed as the original row would be |
| Ordenes.Formset.CloneRow | compras/static/js/compras/ordenes.js:35-56 | without a first row nothing changes; otherwise the counter goes up, the renumbered and reset copy of the first row is appended and TOTAL_FORMS takes the count, and when the reset throws only the counter has moved; a successful clone leaves counter and TOTAL_FORMS in agreement (`Sincronizado`), and a throwing one breaks an agreement that held |
| Ordenes.Formset.LimpiarFila | compras/static/js/compras/ordenes.js:47-51 | the five queries and assignments give the reset row, or the TypeError |
| Ordenes.Formset.OnInput | compras/static/js/compras/ordenes.js:76-80 | an input on a quantity or price field recomputes the subtotals; any other leaves the rows; counter and TOTAL_FORMS are unchanged |
| VistasTraslado.Get | almacen/views.py:973 | `POST.get(key, '0')`: the posted text, or "0" when the field is absent |
| VistasTraslado.Prefijo | almacen/views.py:972-1008 | the checks run in order up to the first failure: the accepted quantities are the leading Ok values, and the failure is the first Err, or none when every check passed |
| VistasTraslado.PrefijoUnico | almacen/views.py:972-1008 | any accepted prefix that ends at the end or at a failure is the one the loop produces |
| VistasTraslado.CantidadEnviada | almacen/views.py:973-1006 | an accepted sent quantity parsed, is positive, at most the requested quantity, and the origin has a stock row holding at least that much |
| VistasTraslado.Comprobaciones | almacen/views.py:972-1008 | one check per detail |
| VistasTraslado.ComprobacionEn | almacen/views.py:972-1008 | check `i` is that of detail `i` |
| VistasTraslado.ComprobarEnviada | almacen/views.py:973-1006 | the first pass's check of detail `i`; an accepted one has its origin row |
| VistasTraslado.Enviados | almacen/views.py:1014 | the details with the sent quantities written, and as many of them |
| VistasTraslado.Enviar | almacen/views.py:1012-1019 | definition of the stock after the second pass; its contract is `EnviarFuera`, `EnviarEn`, `EnviarDetalles` and `ProcesarTraslado` |
| VistasTraslado.EnviarFuera | almacen/views.py:1012-1019 | a stock row that no sent detail names keeps its quantity and its presence |
| VistasTraslado.EnviarEn | almacen/views.py:1012-1019 | with distinct products, the origin row of each sent detail is lowered by exactly the quantity sent |
| VistasTraslado.ProcesarNoNegativo | almacen/views.py:1001-1019 | after a successful first pass every origin row that is lowered stays at or above zero |
| VistasTraslado.ProcesarRespetaSolicitud | almacen/views.py:981-990 | after a successful first pass every detail sends between one and its requested quantity, product and received quantity kept |
| VistasTraslado.PrimeraPasada | almacen/views.py:970-1008 | definition of the outcome of the first pass; its contract is `ValidarEnvio`, `ProcesarNoNegativo`, `ProcesarRespetaSolicitud` and `ProcesarTraslado` |
| VistasTraslado.ValidarEnvio | almacen/views.py:970-1008 | the first pass checks the details in order, stops at the first failure, changes nothing, and reads each accepted detail's origin quantity |
| VistasTraslado.Anotar | almacen/views.py:1008 | an accepted detail's quantity and the origin row it read are appended |
| VistasTraslado.EnviarDetalles | almacen/views.py:1011-1019 | the second pass saves every detail with its sent quantity, lowers each origin row by it, and files no movement |
| VistasTraslado.GuardarEnviado | almacen/views.py:1014-1019 | one detail is saved with its sent quantity and its origin row becomes the value read less the quantity |
| VistasTraslado.ResultadoProcesar | almacen/views.py:956-1031 | definition of what `procesar_traslado` answers; its contract is `ProcesarTraslado` |
| VistasTraslado.ProcesarTraslado | almacen/views.py:956-1031 | refused without a change unless the user is the origin's responsable and the transfer is PENDIENTE, or a check fails, or the user has no profile; otherwise the details record the sent quantities, the origin rows are lowered, the responsable is the user's profile and the estado EN_PROCESO |
| VistasTraslado.CantidadRecibida | almacen/views.py:1055-1072 | text that does not parse counts as 0; an accepted quantity is positive and at most what was sent; any other is one of those two errors |
| VistasTraslado.Recepcion | almacen/views.py:1054-1072 | definition of the quantities accepted before the first failing detail; its contract is `RecibirDetalles` and `RecibirTraslado` |
| VistasTraslado.Recepciones | almacen/views.py:1054-1072 | one check per detail |
| VistasTraslado.RecepcionEn | almacen/views.py:1054-1072 | check `i` is that of detail `i` |
| VistasTraslado.ComprobarRecibida | almacen/views.py:1055-1072 | the loop's check of detail `j` |
| VistasTraslado.Recibido | almacen/views.py:1075-1076 | the saved detail carries the received quantity, and the loaded one is the value `has_changed` compares with |
| VistasTraslado.Movimientos | almacen/signals.py:62-70 | a save with no ENTRADA files nothing, and a save with one files exactly that one |
| VistasTraslado.Recibidos | almacen/views.py:1075 | the details with the received quantities written, and as many of them |
| VistasTraslado.Entradas | almacen/views.py:1074-1076 | definition of the ENTRADAs the reception files; its contract is `EntradasPrimeraRecepcion`, `EntradasFuera`, `RecepcionPaso` and `RecibirTraslado` |
| VistasTraslado.EntradasPrimeraRecepcion | almacen/views.py:1074-1076 | on a first reception of distinct products each accepted detail files one ENTRADA of its received quantity into its destination row |
| VistasTraslado.EntradaNueva | almacen/signals.py:60-70 | a detail received for the first time files one ENTRADA of what arrived, into its destination row only |
| VistasTraslado.EntradasFuera | almacen/signals.py:60-70 | ENTRADAs of other products leave a destination row alone |
| VistasTraslado.ReintentoCuentaDosVeces | almacen/signals.py:62-70 | the ENTRADA is of the whole received quantity, not of its change: receiving 2 then 5 of 5 sent enters 7 |
| VistasTraslado.ReintentoCorregido | almacen/signals.py:60-70 | with the corrected receiver, receiving a then b files ENTRADAs that add up to b, the quantity actually received |
| VistasTraslado.RecepcionPaso | almacen/views.py:1074-1076 | accepting one more quantity updates one more detail and files at most one more ENTRADA, applied to the stock |
| VistasTraslado.GuardarRecibido | almacen/views.py:1075-1076 | one detail saved with its received quantity, its ENTRADA filed and applied, the header unchanged |
| VistasTraslado.RecibirDetalles | almacen/views.py:1054-1076 | the loop saves each detail in turn until one fails; the earlier details and their ENTRADAs stay |
| VistasTraslado.ResultadoRecibir | almacen/views.py:1039-1088 | definition of what `recibir_traslado` answers; its contract is `RecibirTraslado` |
| VistasTraslado.RecibirTraslado | almacen/views.py:1039-1088 | refused without a change unless the user is the destination's responsable and the transfer is EN_PROCESO; the accepted details are saved with their ENTRADAs; only when every detail passed is the transfer COMPLETADO at the given time |

## Left out

- HTTP handling is not modelled: requests, redirects, messages, templates, login decorators and `get_object_or_404`. A view's outcome is a `Result`; its refusals are error values.
- The ORM is replaced by values. Tables are `map`s keyed by their unique keys or `seq`s of saved rows; a query that the source filters by field is a function over them.
- Database constraints are outside the model. This includes `PositiveIntegerField` on `Stock.cantidad`, the `max_length` of text fields, and the 0..32767 range of `DocumentoElectronico.intentos`. Stock quantities can go negative in the model where the source's database would refuse the write: there the save raises IntegrityError, the atomic block rolls back and the view shows its generic error (almacen/views.py:424-426, ventas/views.py:226-231). The negative values in `VistasMovimiento.EditCheckCounterexample` and `Ventas.FinalizarDosDetallesMismaFila` are the model's stock; they show which check lets the movement through, not a row the program stores.
- `transaction.atomic` is modelled only where an exception leaves the block. `ProcesarTraslado` rolls its second pass back when the user has no profile. `RecibirTraslado` keeps the details saved before a failing one, as the early return in the source commits them.
- The clock is a parameter (`Fecha`). So is the date text in a transfer's referencia.
- The count-then-insert race in the referencia numbering is a concurrency matter and is not modelled (almacen/models.py:391-394).
- The logged-in user and their profile are parameters.
- SafeDecimal.SafeDecimal: text in Unicode decimal digits other than 0-9 (Arabic-Indic, full-width and so on), or surrounded by Unicode whitespace outside ASCII and Latin-1 (U+1680, U+2000-U+200A, U+2028, U+2029, U+202F, U+205F, U+3000), which Python's `Decimal()` reads, gives 0.00 in the model.
- FiltrosParaguay.PygIntcomma: the same text, which Python's `int()` reads, comes back unchanged in the model instead of being grouped.
- PyText.IsSpace covers the whitespace of ASCII and Latin-1 only, for `strip()`, `int()` and `Decimal()` alike; `PyText.Strip` therefore keeps the wider Unicode spaces that Python's `strip()` removes.
- Only finite `Decimal` values are modelled. NaN, infinities, signed zero and the 28-digit context precision are not.
- `int()` and `str()` of a Python float are not modelled; floats reach `safe_decimal` and `pyg_intcomma` only as text.
- The purchase-order script uses exact decimals instead of IEEE doubles. This leaves out double rounding in `cantidad * precio`, `Infinity`, and the exponential output of `toFixed` at 1e21 and above.
- JsNumeros.ParseFloatFixed2: states the written subtotal over exact decimals; with doubles it holds only where the product and its rounding are exact.
- Ordenes.RecalcularSpec: the same exact-decimal reading of the subtotal as `JsNumeros.ParseFloatFixed2`.
- The initial `parseInt(totalForms.value)` is a parameter of `Ordenes.Formset.constructor`. A TOTAL_FORMS value that is not a number (NaN) is not modelled.
- The debug `alert` in `cloneRow` is not modelled. Button and listener wiring is not modelled either; `OnInput` takes the changed field's name.
- The page is held as values: rows are fields with name, id, value and checked state. DOM aliasing and nodes other than inputs and labels are not modelled.
- Loading the location JSON file and the service singleton are not modelled; the nested data is a parameter.
- Malformed location data (entries missing `codigo` or `nombre`) is not modelled; a missing child list is an empty one.
- SIFEN XML building, signing, the HTTP POST to the SET, the mock services and the sending command are network and external-library code, and are not modelled.
- Fields that the models do not declare are not read. The conversion service's `producto_origen`, `producto_destino` and `cantidad_destino` are parameters (almacen/services.py). Producto declares no `precio_compra`: the `actualizar_precio_producto` receiver sets it as a plain attribute of the line's in-memory product, and `producto.save()` stores nothing of it, so no purchase price is kept anywhere in the model. Its one observable effect is that `recibir` reads it on each freshly loaded product, which raises AttributeError for a line of quantity 0 and rolls the reception back (`Compras.PrecioCompraLeido`, `Compras.OrdenCompra.Recibir`).
- The first `registrar_movimiento_entrada` receiver in almacen/signals.py is not modelled. Its name is rebound by the second definition, so only lines 60-70 are connected.
- `Caja.clean` fills in timestamps; that part is left out. The `codigo_sucursal` and `codigo_punto` convenience properties are left out.
- `SecuenciaDocumento.formato` is not editable, so the model keeps the one fixed format. A row with any other format is not modelled.
- Ventas.Venta.Cancelar: the EGRESO mirrors the most recently saved cash movement of the sale, and the ENTRADAs are created newest movement first (`Ventas.DeMotivo`). Both follow the `-fecha` ordering of MovimientoCaja and MovimientoInventario, read as the reverse of the order of saving. Rows saved with equal `fecha` values have no defined order in the database; the model gives them the reverse of their saving order.
- Code and design disagree in two places, and the model follows the code:
  - The status receiver `actualizar_estado_traslado` tests `has_changed()` on details re-read from the database. For those, the loaded value is the value, so during the transfer views it never changes the estado (`Traslados.ActualizarEstadoRecargado`).
  - `editar_movimiento` reads its `old_*` values after `is_valid()` has copied the posted values onto the instance. The as-written check is `VistasMovimiento.EditCheckAsWritten`; the view method uses the corrected one (see Findings and the next line).
- VistasMovimiento.RegistrarMovimiento: models the intended validation `VistasMovimiento.IsValid`. Where the program's `is_valid()` raises TypeError outside the view's `try` (almacen/views.py:320), so the user gets a server error, the model returns `Err(FormularioInvalido)`. The crash itself is stated by `VistasMovimiento.IsValidAsWritten` and `VistasMovimiento.RegistrarSalidaGrandeFalla`.
- VistasMovimiento.EditarMovimiento: models the corrected stock check `VistasMovimiento.EditCheck`. It refuses with `Insuficiente` the edits that the as-written check accepts (almacen/views.py:387-418), such as an ENTRADA of 5 on a row of 5 edited into a SALIDA of 5. The as-written behaviour is stated by `VistasMovimiento.EditCheckAsWritten` and `VistasMovimiento.EditCheckCounterexample`.
- The transfer views keep the receiver as written (`Traslados.EntradaDe`). The corrected receiver of the Findings, `Traslados.EntradaCorregida`, is proved on its own (`VistasTraslado.ReintentoCorregido`) and does not replace it, so the view contracts still describe the double count.

## Findings

| source | as written | input that shows it | evidently intended | confidence | as-written member | corrected member |
|---|---|---|---|---|---|---|
| almacen/signals.py:60-70 | the receiver files an ENTRADA of the whole `cantidad_recibida` whenever it changed, not of the change; `recibir_traslado` commits the details saved before a failing one, so receiving again re-enters them | a detail sent 5, received 2, then received 5 on a second submission: ENTRADAs of 2 and 5, so 7 enter for 5 received | file only the rise of `cantidad_recibida` | not executed | VistasTraslado.ReintentoCuentaDosVeces | VistasTraslado.ReintentoCorregido |
| almacen/views.py:380-418 | the SALIDA check reads `old_*` from the instance that `is_valid()` has already overwritten, so `diferencia` is 0 and only an already negative row is refused | a stock row of 5 built by an ENTRADA of 5, edited into a SALIDA of 5: the view's check accepts it; only the database's non-negativity constraint on `Stock.cantidad` refuses the save, so the user gets the view's generic error instead of the stock message (the -5 the lemma shows is the model's stock, which has no constraint) | refuse a SALIDA whose row would end below zero once the stored version is reverted and the new one applied | not executed | VistasMovimiento.EditCheckCounterexample | VistasMovimiento.EditCheckIff |
| almacen/views.py:320-321 | when the form's stock check records its error on `cantidad`, the model's `clean` compares the row with a missing `cantidad` and raises TypeError | one unit on the row and a new SALIDA of two: `is_valid()` raises instead of reporting the error | report the invalid form | not executed | VistasMovimiento.RegistrarSalidaGrandeFalla | VistasMovimiento.IsValid |
| facturacion/models.py:2,40-44 | `timezone` is `datetime.timezone`, which has no `now()`, so `marcar_como_enviado` raises after setting `estado` and before counting the attempt or saving; `marcar_como_aceptado` fails the same way | a new document sent once: the stored row stays NO_GENERADO with 0 attempts | Django's `timezone.now()`: the row records ENVIADO, the send time and one more attempt | not executed | Facturacion.DocumentoElectronico.MarcarComoEnviadoAsWritten | Facturacion.DocumentoElectronico.MarcarComoEnviado |
