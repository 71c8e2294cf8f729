/**
 * Electronic documents (facturacion/models.py): the status of a sale's electronic invoice as
 * it is generated, validated, sent to the tax authority (SET) and accepted or rejected.
 * Timestamps are parameters; the SET response is an opaque string.
 */
module Facturacion {
  import opened Base

  datatype EstadoDocumento = NoGenerado | BorradorXml | Validado | Enviado | Aceptado | ErrorSet

  /** The code stored in the `estado` column. */
  function Codigo(e: EstadoDocumento): string
  {
    match e
    case NoGenerado => "NO_GENERADO"
    case BorradorXml => "BORRADOR"
    case Validado => "VALIDADO"
    case Enviado => "ENVIADO"
    case Aceptado => "ACEPTADO"
    case ErrorSet => "ERROR"
  }

  /** The choice a stored code names, if it is one of the six. */
  function DesdeCodigo(s: string): Option<EstadoDocumento>
  {
    if s == "NO_GENERADO" then Some(NoGenerado)
    else if s == "BORRADOR" then Some(BorradorXml)
    else if s == "VALIDADO" then Some(Validado)
    else if s == "ENVIADO" then Some(Enviado)
    else if s == "ACEPTADO" then Some(Aceptado)
    else if s == "ERROR" then Some(ErrorSet)
    else None
  }

  /** The six codes are exactly the accepted values, each naming its own state. */
  lemma CodigosSpec(e: EstadoDocumento, s: string)
    ensures DesdeCodigo(Codigo(e)) == Some(e)
    ensures DesdeCodigo(s) == Some(e) ==> s == Codigo(e)
    ensures DesdeCodigo(s).Some? <==>
      s in {"NO_GENERADO", "BORRADOR", "VALIDADO", "ENVIADO", "ACEPTADO", "ERROR"}
  {
  }

  /** The stored fields a `marcar_*` method touches. */
  datatype Fila = Fila(
    estado: EstadoDocumento,
    respuestaSet: Option<string>,
    fechaEnvio: Option<Fecha>,
    fechaAceptacion: Option<Fecha>,
    errores: Option<string>,
    intentos: nat)

  /** `datetime.timezone.now` does not exist: the attribute lookup raises. */
  datatype FalloAtributo = AttributeError

  /**
   * A DocumentoElectronico instance: its in-memory fields, and `guardado`, the row as last
   * saved.
   */
  class DocumentoElectronico {
    var estado: EstadoDocumento
    var respuestaSet: Option<string>
    var fechaEnvio: Option<Fecha>
    var fechaAceptacion: Option<Fecha>
    var errores: Option<string>
    var intentos: nat
    var guardado: Fila

    function Memoria(): Fila
      reads this
    {
      Fila(estado, respuestaSet, fechaEnvio, fechaAceptacion, errores, intentos)
    }

    /** A new document: NO_GENERADO, no attempts, nothing recorded; saved as such. */
    constructor ()
      ensures estado == NoGenerado && intentos == 0
      ensures respuestaSet == None && fechaEnvio == None && fechaAceptacion == None && errores == None
      ensures guardado == Memoria()
    {
      estado := NoGenerado;
      respuestaSet := None;
      fechaEnvio := None;
      fechaAceptacion := None;
      errores := None;
      intentos := 0;
      guardado := Fila(NoGenerado, None, None, None, None, 0);
    }

    /**
     * `marcar_como_enviado` as written: `estado` is assigned, then `timezone.now()` raises,
     * so neither the attempt count nor the row change.
     */
    method MarcarComoEnviadoAsWritten() returns (r: Result<(), FalloAtributo>)
      modifies this
      ensures r == Err(AttributeError)
      ensures Memoria() == old(Memoria()).(estado := Enviado)
      ensures intentos == old(intentos) && guardado == old(guardado)
    {
      estado := Enviado;
      r := Err(AttributeError);
    }

    /**
     * `marcar_como_aceptado` as written: `estado` and `respuesta_set` are assigned, then
     * `timezone.now()` raises before the save.
     */
    method MarcarComoAceptadoAsWritten(respuesta: string) returns (r: Result<(), FalloAtributo>)
      modifies this
      ensures r == Err(AttributeError)
      ensures Memoria() == old(Memoria()).(estado := Aceptado, respuestaSet := Some(respuesta))
      ensures guardado == old(guardado)
    {
      estado := Aceptado;
      respuestaSet := Some(respuesta);
      r := Err(AttributeError);
    }

    /** `marcar_como_enviado` with Django's `timezone.now()` (= `ahora`): ENVIADO, one more attempt, saved. */
    method MarcarComoEnviado(ahora: Fecha)
      modifies this
      ensures Memoria() == old(Memoria()).(estado := Enviado, fechaEnvio := Some(ahora), intentos := old(intentos) + 1)
      ensures guardado == Memoria()
    {
      estado := Enviado;
      fechaEnvio := Some(ahora);
      intentos := intentos + 1;
      guardado := Memoria();
    }

    /** `marcar_como_aceptado` with Django's `timezone.now()`: ACEPTADO, the response kept, saved. */
    method MarcarComoAceptado(respuesta: string, ahora: Fecha)
      modifies this
      ensures Memoria() == old(Memoria()).(estado := Aceptado, respuestaSet := Some(respuesta),
                                          fechaAceptacion := Some(ahora))
      ensures guardado == Memoria()
    {
      estado := Aceptado;
      respuestaSet := Some(respuesta);
      fechaAceptacion := Some(ahora);
      guardado := Memoria();
    }

    /** `marcar_como_error`: from any state, ERROR with the error text; attempts untouched; saved. */
    method MarcarComoError(error: string)
      modifies this
      ensures Memoria() == old(Memoria()).(estado := ErrorSet, errores := Some(error))
      ensures intentos == old(intentos) && guardado == Memoria()
    {
      estado := ErrorSet;
      errores := Some(error);
      guardado := Memoria();
    }
  }

  /**
   * The discrepancy: as written, a send never reaches the row, whereas with Django's clock
   * the row records ENVIADO and one more attempt.
   */
  method EnviarDesdeNuevo(ahora: Fecha) returns (porEscrito: Fila, corregido: Fila)
    ensures porEscrito.estado == NoGenerado && porEscrito.intentos == 0
    ensures corregido.estado == Enviado && corregido.intentos == 1 && corregido.fechaEnvio == Some(ahora)
  {
    var a := new DocumentoElectronico();
    var _ := a.MarcarComoEnviadoAsWritten();
    porEscrito := a.guardado;
    var b := new DocumentoElectronico();
    b.MarcarComoEnviado(ahora);
    corregido := b.guardado;
  }

  /**
   * Sending, being rejected and sending again: each send counts one attempt, the rejection
   * none, and the row ends ENVIADO with two attempts and the last send's date.
   */
  method ReintentoTrasError(ahora: Fecha, despues: Fecha, error: string) returns (f: Fila)
    ensures f.estado == Enviado && f.intentos == 2 && f.fechaEnvio == Some(despues) && f.errores == Some(error)
  {
    var d := new DocumentoElectronico();
    d.MarcarComoEnviado(ahora);
    d.MarcarComoError(error);
    d.MarcarComoEnviado(despues);
    f := d.guardado;
  }
}
