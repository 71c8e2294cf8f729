/**
 * Warehouse transfers (almacen/models.py TrasladoProducto and DetalleTraslado, and the
 * DetalleTraslado receivers of almacen/signals.py): the automatic referencia, the detail
 * quantities with their bounds and change tracking, and what saving a detail does to the
 * transfer's estado and to the movement ledger.
 */
module Traslados {
  import opened Base
  import opened PyText
  import opened Inventario

  datatype EstadoTraslado = Pendiente | EnProceso | Completado | Cancelado

  // ---------------------------------------------------------------------------------------
  // TrasladoProducto.save: the referencia

  function StartsWith(s: string, prefix: string): bool
  {
    |prefix| <= |s| && s[..|prefix|] == prefix
  }

  /** `filter(referencia__startswith=prefix).count()`. */
  function CountPrefix(refs: seq<string>, prefix: string): (n: nat)
    ensures n <= |refs|
  {
    if refs == [] then 0
    else CountPrefix(refs[..|refs| - 1], prefix) + (if StartsWith(refs[|refs| - 1], prefix) then 1 else 0)
  }

  /**
   * `TrasladoProducto.save`: an empty referencia becomes `TR-<fecha>-<n+1>`, zero-padded to three
   * digits, where n counts the existing references starting with `TR-<fecha>`; `fecha` is the
   * `YYYYMMDD` text of the current date.
   */
  function Referencia(referencia: string, existentes: seq<string>, fecha: string): string
  {
    if referencia != "" then referencia
    else "TR-" + fecha + "-" + ZeroPad(CountPrefix(existentes, "TR-" + fecha) + 1, 3)
  }

  /**
   * A given referencia is kept. A generated one is `TR-<fecha>-` followed by at least three
   * digits that denote one more than the day's references counted.
   */
  lemma ReferenciaSpec(referencia: string, existentes: seq<string>, fecha: string)
    ensures referencia != "" ==> Referencia(referencia, existentes, fecha) == referencia
    ensures referencia == "" ==> var r, pre := Referencia(referencia, existentes, fecha), "TR-" + fecha + "-";
      && |pre| + 3 <= |r| && r[..|pre|] == pre && AllDigits(r[|pre|..])
      && DigitsValue(r[|pre|..]) == CountPrefix(existentes, "TR-" + fecha) + 1
  {
    if referencia == "" {
      var n := CountPrefix(existentes, "TR-" + fecha) + 1;
      var r, pre := Referencia(referencia, existentes, fecha), "TR-" + fecha + "-";
      assert r == pre + ZeroPad(n, 3);
      assert r[|pre|..] == ZeroPad(n, 3);
      ZeroPadShape(n, 3);
    }
  }

  /** Membership of a prefix-carrying reference is counted. */
  lemma {:induction false} CountPrefixPositive(refs: seq<string>, prefix: string, i: nat)
    requires i < |refs| && StartsWith(refs[i], prefix)
    ensures CountPrefix(refs, prefix) >= 1
  {
    if i < |refs| - 1 {
      CountPrefixPositive(refs[..|refs| - 1], prefix, i);
    }
  }

  /** The references of a day that follow the numbering, numbered 1 to n. */
  ghost predicate NumeradasHasta(refs: seq<string>, fecha: string, n: nat)
  {
    forall i :: 0 <= i < |refs| && StartsWith(refs[i], "TR-" + fecha) ==>
      exists j: nat {:trigger ZeroPad(j, 3)} :: 1 <= j <= n && refs[i] == "TR-" + fecha + "-" + ZeroPad(j, 3)
  }

  /**
   * When the day's references so far are its own numbers 1 to n (n being their count), the
   * generated reference is new.
   */
  lemma ReferenciaNueva(existentes: seq<string>, fecha: string)
    requires NumeradasHasta(existentes, fecha, CountPrefix(existentes, "TR-" + fecha))
    ensures Referencia("", existentes, fecha) !in existentes
  {
    var prefix := "TR-" + fecha;
    var n := CountPrefix(existentes, prefix);
    var r := Referencia("", existentes, fecha);
    assert r == prefix + "-" + ZeroPad(n + 1, 3);
    assert StartsWith(r, prefix) by { assert r[..|prefix|] == prefix; }
    forall i | 0 <= i < |existentes| ensures existentes[i] != r {
      if StartsWith(existentes[i], prefix) {
        var j: nat :| 1 <= j <= n && existentes[i] == prefix + "-" + ZeroPad(j, 3);
        MismoSufijo(prefix, ZeroPad(j, 3), ZeroPad(n + 1, 3));
        if ZeroPad(j, 3) == ZeroPad(n + 1, 3) {
          ZeroPadInjective(j, n + 1, 3);
        }
      }
    }
  }

  /** Two references with the same prefix are equal only when their numbers are. */
  lemma MismoSufijo(prefix: string, a: string, b: string)
    ensures prefix + "-" + a == prefix + "-" + b ==> a == b
  {
    assert (prefix + "-" + a)[|prefix| + 1..] == a;
    assert (prefix + "-" + b)[|prefix| + 1..] == b;
  }

  /** The first reference of a day is `TR-<fecha>-001`. */
  lemma PrimeraReferencia(fecha: string)
    ensures Referencia("", [], fecha) == "TR-" + fecha + "-001"
  {
    assert NatToString(1) == "1";
    assert Repeat('0', 2) == "00";
  }

  // ---------------------------------------------------------------------------------------
  // DetalleTraslado

  /** A DetalleTraslado row. */
  datatype Detalle = Detalle(id: nat, producto: ProductoId, solicitada: nat, enviada: nat, recibida: nat)

  /** A loaded DetalleTraslado object: its row and the quantities it had when it was loaded. */
  datatype Instancia = Instancia(fila: Detalle, originalEnviada: nat, originalRecibida: nat)

  /** Loading a row: the remembered quantities are the current ones. */
  function Cargar(d: Detalle): (inst: Instancia)
    ensures inst.fila == d
  {
    Instancia(d, d.enviada, d.recibida)
  }

  function CargarTodos(ds: seq<Detalle>): (r: seq<Instancia>)
    ensures |r| == |ds| && forall i :: 0 <= i < |ds| ==> r[i] == Cargar(ds[i])
  {
    if ds == [] then [] else CargarTodos(ds[..|ds| - 1]) + [Cargar(ds[|ds| - 1])]
  }

  datatype Campo = CampoEnviada | CampoRecibida

  /** `has_changed(field)`; None checks both quantities. */
  predicate HasChanged(inst: Instancia, campo: Option<Campo>)
  {
    match campo
    case Some(CampoEnviada) => inst.originalEnviada != inst.fila.enviada
    case Some(CampoRecibida) => inst.originalRecibida != inst.fila.recibida
    case None => inst.originalEnviada != inst.fila.enviada || inst.originalRecibida != inst.fila.recibida
  }

  /** A freshly loaded object reports no change, and both quantities together is either one. */
  lemma HasChangedSpec(inst: Instancia, d: Detalle)
    ensures !HasChanged(Cargar(d), None)
    ensures HasChanged(inst, None) <==> HasChanged(inst, Some(CampoEnviada)) || HasChanged(inst, Some(CampoRecibida))
  {
  }

  datatype DetalleError = EnviadaMayorQueSolicitada | RecibidaMayorQueEnviada

  /** `DetalleTraslado.clean`: enviada must not exceed solicitada, then recibida must not exceed enviada. */
  function CleanDetalle(d: Detalle): Result<(), DetalleError>
  {
    if d.enviada > d.solicitada then Err(EnviadaMayorQueSolicitada)
    else if d.recibida > d.enviada then Err(RecibidaMayorQueEnviada)
    else Ok(())
  }

  /** A detail passes exactly when requested >= sent >= received; the first bound is reported first. */
  lemma CleanDetalleIff(d: Detalle)
    ensures CleanDetalle(d).Ok? <==> d.recibida <= d.enviada <= d.solicitada
    ensures d.enviada > d.solicitada ==> CleanDetalle(d) == Err(EnviadaMayorQueSolicitada)
  {
  }

  predicate TodoEnviado(ds: seq<Detalle>)
  {
    forall i :: 0 <= i < |ds| ==> ds[i].enviada == ds[i].solicitada
  }

  /**
   * The estado hook of `DetalleTraslado.save`, over the transfer's rows as saved: PENDIENTE
   * turns EN_PROCESO when every detail has its requested quantity sent.
   */
  function EstadoTrasGuardar(estado: EstadoTraslado, ds: seq<Detalle>): (e: EstadoTraslado)
    ensures estado != Pendiente ==> e == estado
    ensures estado == Pendiente ==> (e == EnProceso <==> TodoEnviado(ds)) && (e == EnProceso || e == Pendiente)
  {
    if TodoEnviado(ds) && estado == Pendiente then EnProceso else estado
  }

  // ---------------------------------------------------------------------------------------
  // almacen/signals.py

  predicate TodoEnviadoInst(ds: seq<Instancia>)
  {
    forall i :: 0 <= i < |ds| ==> ds[i].fila.enviada == ds[i].fila.solicitada
  }

  predicate TodoRecibidoInst(ds: seq<Instancia>)
  {
    forall i :: 0 <= i < |ds| && ds[i].fila.enviada > 0 ==> ds[i].fila.recibida == ds[i].fila.enviada
  }

  predicate AlgunCambio(ds: seq<Instancia>)
  {
    exists i :: 0 <= i < |ds| && HasChanged(ds[i], None)
  }

  /**
   * `actualizar_estado_traslado` over the details it reads: nothing unless some detail reports
   * a change; then EN_PROCESO when everything is sent, and COMPLETADO (stamped `ahora`) when
   * every sent detail is fully received, the later assignment winning.
   */
  function ActualizarEstado(estado: EstadoTraslado, fecha: Option<Fecha>, ds: seq<Instancia>, ahora: Fecha)
    : (r: (EstadoTraslado, Option<Fecha>))
  {
    if AlgunCambio(ds) then
      var e := if TodoEnviadoInst(ds) then EnProceso else estado;
      if TodoRecibidoInst(ds) then (Completado, Some(ahora)) else (e, fecha)
    else (estado, fecha)
  }

  lemma ActualizarEstadoSpec(estado: EstadoTraslado, fecha: Option<Fecha>, ds: seq<Instancia>, ahora: Fecha)
    ensures !AlgunCambio(ds) ==> ActualizarEstado(estado, fecha, ds, ahora) == (estado, fecha)
    ensures AlgunCambio(ds) && TodoRecibidoInst(ds) ==> ActualizarEstado(estado, fecha, ds, ahora) == (Completado, Some(ahora))
    ensures AlgunCambio(ds) && TodoEnviadoInst(ds) && !TodoRecibidoInst(ds) ==>
      ActualizarEstado(estado, fecha, ds, ahora) == (EnProceso, fecha)
    ensures AlgunCambio(ds) && !TodoEnviadoInst(ds) && !TodoRecibidoInst(ds) ==>
      ActualizarEstado(estado, fecha, ds, ahora) == (estado, fecha)
  {
  }

  /** With nothing sent, a change completes the transfer; "all received" holds vacuously. */
  lemma NadaEnviadoCompleta(estado: EstadoTraslado, fecha: Option<Fecha>, ds: seq<Instancia>, ahora: Fecha)
    requires AlgunCambio(ds)
    requires forall i :: 0 <= i < |ds| ==> ds[i].fila.enviada == 0
    ensures ActualizarEstado(estado, fecha, ds, ahora) == (Completado, Some(ahora))
  {
  }

  /** The receiver reads the transfer's details afresh, so none reports a change and it never acts. */
  lemma ActualizarEstadoRecargado(estado: EstadoTraslado, fecha: Option<Fecha>, ds: seq<Detalle>, ahora: Fecha)
    ensures ActualizarEstado(estado, fecha, CargarTodos(ds), ahora) == (estado, fecha)
  {
    var inst := CargarTodos(ds);
    forall i | 0 <= i < |inst| ensures !HasChanged(inst[i], None) {
      assert inst[i] == Cargar(ds[i]);
    }
  }

  /** `instance.traslado.responsable or instance.traslado.solicitante`. */
  function UsuarioEntrada(responsable: Option<UsuarioId>, solicitante: UsuarioId): (u: UsuarioId)
    ensures responsable.Some? ==> u == responsable.value
    ensures responsable.None? ==> u == solicitante
  {
    if responsable.Some? then responsable.value else solicitante
  }

  /** The motivo of the ENTRADA: `Traslado <referencia> desde <str(almacen_origen)>`. */
  function MotivoEntrada(referencia: string, origenTexto: string): string
  {
    "Traslado " + referencia + " desde " + origenTexto
  }

  /**
   * The live `registrar_movimiento_entrada` (the second definition, which replaces the first):
   * one ENTRADA of the received quantity into the destination when it is positive and the
   * saved object's received quantity changed.
   */
  function EntradaDe(inst: Instancia, destino: AlmacenId, referencia: string, origenTexto: string,
                     responsable: Option<UsuarioId>, solicitante: UsuarioId): (r: Option<Movimiento>)
    ensures r.Some? <==> inst.fila.recibida > 0 && HasChanged(inst, Some(CampoRecibida))
    ensures r.Some? ==> (r.value.tipo == Entrada && r.value.cantidad == inst.fila.recibida
      && r.value.producto == inst.fila.producto && r.value.almacen == destino
      && r.value.usuario == UsuarioEntrada(responsable, solicitante))
  {
    if inst.fila.recibida > 0 && HasChanged(inst, Some(CampoRecibida)) then
      Some(Movimiento(inst.fila.producto, destino, inst.fila.recibida, Entrada,
                      UsuarioEntrada(responsable, solicitante), MotivoEntrada(referencia, origenTexto)))
    else None
  }

  /** Saving a detail exactly as it was loaded creates no movement. */
  lemma EntradaDeSinCambio(d: Detalle, destino: AlmacenId, referencia: string, origenTexto: string,
                           responsable: Option<UsuarioId>, solicitante: UsuarioId)
    ensures EntradaDe(Cargar(d), destino, referencia, origenTexto, responsable, solicitante).None?
  {
  }

  /**
   * The receiver as evidently intended: one ENTRADA of what arrived since the detail was
   * loaded, so that a detail received again files only the difference.
   */
  function EntradaCorregida(inst: Instancia, destino: AlmacenId, referencia: string, origenTexto: string,
                            responsable: Option<UsuarioId>, solicitante: UsuarioId): (r: Option<Movimiento>)
    ensures r.Some? <==> inst.fila.recibida > inst.originalRecibida
    ensures r.Some? ==> (r.value.tipo == Entrada && r.value.cantidad == inst.fila.recibida - inst.originalRecibida
      && r.value.producto == inst.fila.producto && r.value.almacen == destino
      && r.value.usuario == UsuarioEntrada(responsable, solicitante))
  {
    if inst.fila.recibida > inst.originalRecibida then
      Some(Movimiento(inst.fila.producto, destino, inst.fila.recibida - inst.originalRecibida, Entrada,
                      UsuarioEntrada(responsable, solicitante), MotivoEntrada(referencia, origenTexto)))
    else None
  }

  // ---------------------------------------------------------------------------------------
  // The transfer object

  /** The referencia, the two warehouses and the solicitante of a transfer. */
  datatype Encabezado = Encabezado(referencia: string, almacenOrigen: AlmacenId, almacenDestino: AlmacenId,
                                   origenTexto: string, solicitante: UsuarioId)

  class Traslado {
    var referencia: string
    var almacenOrigen: AlmacenId
    var almacenDestino: AlmacenId
    /** `str(almacen_origen)`, used in the movement's motivo. */
    var origenTexto: string
    var solicitante: UsuarioId
    var responsable: Option<UsuarioId>
    var estado: EstadoTraslado
    var fechaCompletado: Option<Fecha>
    /** The DetalleTraslado rows of this transfer. */
    var detalles: seq<Detalle>

    /** The fields the views never change. */
    function Fijos(): Encabezado
      reads this
    {
      Encabezado(referencia, almacenOrigen, almacenDestino, origenTexto, solicitante)
    }

    /** A new transfer: PENDIENTE, without responsable or completion date, with its referencia filled in. */
    constructor (referencia: string, existentes: seq<string>, fecha: string, origen: AlmacenId, destino: AlmacenId,
                 origenTexto: string, solicitante: UsuarioId, detalles: seq<Detalle>)
      ensures this.referencia == Referencia(referencia, existentes, fecha)
      ensures almacenOrigen == origen && almacenDestino == destino && this.origenTexto == origenTexto
      ensures this.solicitante == solicitante && responsable == None
      ensures estado == Pendiente && fechaCompletado == None && this.detalles == detalles
    {
      this.referencia := Referencia(referencia, existentes, fecha);
      almacenOrigen := origen;
      almacenDestino := destino;
      this.origenTexto := origenTexto;
      this.solicitante := solicitante;
      responsable := None;
      estado := Pendiente;
      fechaCompletado := None;
      this.detalles := detalles;
    }

    /**
     * `detalle.save()` for the loaded object `inst` of detail number `j`: the row is written;
     * the post_save receivers run (`actualizar_estado_traslado` over freshly loaded details, then
     * the live ENTRADA receiver); then the estado hook of `DetalleTraslado.save`.
     */
    method GuardarDetalle(db: InventarioDb, j: nat, inst: Instancia, ahora: Fecha)
      requires j < |detalles| && db.Valid()
      modifies this, db
      ensures db.Valid()
      ensures detalles == old(detalles)[j := inst.fila]
      ensures estado == EstadoTrasGuardar(old(estado), detalles) && fechaCompletado == old(fechaCompletado)
      ensures referencia == old(referencia) && almacenOrigen == old(almacenOrigen) && almacenDestino == old(almacenDestino)
      ensures origenTexto == old(origenTexto) && solicitante == old(solicitante) && responsable == old(responsable)
      ensures var entrada := EntradaDe(inst, almacenDestino, referencia, origenTexto, responsable, solicitante);
        && (entrada.Some? ==> db.stock == SaveMovimiento(old(db.stock), None, entrada.value)
                              && db.movimientos == old(db.movimientos) + [entrada.value])
        && (entrada.None? ==> db.stock == old(db.stock) && db.movimientos == old(db.movimientos))
    {
      detalles := detalles[j := inst.fila];
      ActualizarEstadoRecargado(estado, fechaCompletado, detalles, ahora);
      var nuevo := ActualizarEstado(estado, fechaCompletado, CargarTodos(detalles), ahora);
      estado, fechaCompletado := nuevo.0, nuevo.1;
      var entrada := EntradaDe(inst, almacenDestino, referencia, origenTexto, responsable, solicitante);
      if entrada.Some? {
        db.CrearMovimiento(entrada.value);
      }
      estado := EstadoTrasGuardar(estado, detalles);
    }
  }
}
