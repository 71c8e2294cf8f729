/**
 * Cash registers (caja/models.py): a register is opened with a starting balance and closed
 * again, and every saved cash movement moves its current balance, up for an INGRESO and down
 * for an EGRESO. Amounts are integers (guaraníes or cents).
 */
module Cajas {
  import opened Base
  import opened Inventario

  type CajaId = nat

  datatype EstadoCaja = Abierta | Cerrada

  datatype TipoCaja = Ingreso | Egreso

  /** A MovimientoCaja row; `venta` is the sale it belongs to, if any. */
  datatype MovimientoCaja = MovimientoCaja(
    caja: CajaId,
    tipo: TipoCaja,
    monto: int,
    responsable: UsuarioId,
    descripcion: string,
    venta: Option<nat>,
    comprobante: string)

  /** The sign `MovimientoCaja.save` applies: + for INGRESO, - for any other tipo. */
  function Signo(t: TipoCaja): (s: int)
    ensures s == 1 <==> t == Ingreso
    ensures s == -1 <==> t != Ingreso
  {
    if t == Ingreso then 1 else -1
  }

  /** The net amount a sequence of cash movements puts into a register. */
  function Neto(ms: seq<MovimientoCaja>): int
  {
    if ms == [] then 0 else Neto(ms[..|ms| - 1]) + Signo(ms[|ms| - 1].tipo) * ms[|ms| - 1].monto
  }

  lemma NetoAppend(ms: seq<MovimientoCaja>, m: MovimientoCaja)
    ensures Neto(ms + [m]) == Neto(ms) + Signo(m.tipo) * m.monto
  {
    assert (ms + [m])[..|ms|] == ms;
  }

  /** An INGRESO followed by an EGRESO of the same amount nets to zero. */
  lemma IngresoEgresoNetoCero(a: MovimientoCaja, b: MovimientoCaja)
    requires a.tipo == Ingreso && b.tipo == Egreso && a.monto == b.monto
    ensures Neto([a, b]) == 0
  {
    assert [a, b][..1] == [a];
    assert [a][..0] == [];
    assert Neto([a]) == a.monto;
  }

  datatype CajaError = YaAbierta | YaCerrada | MontoNoPositivo

  /** `MovimientoCaja.clean`: an INGRESO or an EGRESO must have a positive amount. */
  function CleanMovimiento(m: MovimientoCaja): Result<(), CajaError>
  {
    if m.tipo == Ingreso && m.monto <= 0 then Err(MontoNoPositivo)
    else if m.tipo == Egreso && m.monto <= 0 then Err(MontoNoPositivo)
    else Ok(())
  }

  /** Both kinds are accepted exactly when the amount is positive. */
  lemma CleanMovimientoIff(m: MovimientoCaja)
    ensures CleanMovimiento(m).Ok? <==> m.monto > 0
  {
  }

  /**
   * A Caja. `registrados` (ghost) are the movements saved since it was last opened, so its
   * current balance is always its opening balance plus their net amount.
   */
  class Caja {
    const id: CajaId
    var saldoInicial: int
    var saldoActual: int
    var estado: EstadoCaja
    var responsable: UsuarioId
    var fechaApertura: Option<Fecha>
    var fechaCierre: Option<Fecha>
    ghost var registrados: seq<MovimientoCaja>

    ghost predicate Valid()
      reads this
    {
      saldoActual == saldoInicial + Neto(registrados)
    }

    /** A new register: CERRADA, with both balances 0. */
    constructor (id: CajaId, responsable: UsuarioId)
      ensures Valid() && this.id == id && this.responsable == responsable
      ensures estado == Cerrada && saldoInicial == 0 && saldoActual == 0
      ensures fechaApertura == None && fechaCierre == None
    {
      this.id := id;
      this.responsable := responsable;
      saldoInicial := 0;
      saldoActual := 0;
      estado := Cerrada;
      fechaApertura := None;
      fechaCierre := None;
      registrados := [];
    }

    /** `Caja.abrir`: refused when already ABIERTA; otherwise a fresh start at `saldoInicial`. */
    method Abrir(responsable: UsuarioId, saldoInicial: int, ahora: Fecha) returns (r: Result<(), CajaError>)
      requires Valid()
      modifies this
      ensures Valid()
      ensures old(estado) == Abierta ==> (r == Err(YaAbierta) && saldoActual == old(saldoActual)
        && this.saldoInicial == old(this.saldoInicial) && this.responsable == old(this.responsable)
        && estado == Abierta && fechaApertura == old(fechaApertura) && fechaCierre == old(fechaCierre))
      ensures old(estado) == Cerrada ==> (r == Ok(()) && estado == Abierta
        && this.responsable == responsable && this.saldoInicial == saldoInicial && saldoActual == saldoInicial
        && fechaApertura == Some(ahora) && fechaCierre == old(fechaCierre) && registrados == [])
    {
      if estado == Abierta {
        return Err(YaAbierta);
      }
      this.responsable := responsable;
      this.saldoInicial := saldoInicial;
      saldoActual := saldoInicial;
      estado := Abierta;
      fechaApertura := Some(ahora);
      registrados := [];
      r := Ok(());
    }

    /** `Caja.cerrar`: refused when already CERRADA; otherwise CERRADA with the balance left as it is. */
    method Cerrar(ahora: Fecha) returns (r: Result<(), CajaError>)
      requires Valid()
      modifies this
      ensures Valid()
      ensures saldoActual == old(saldoActual) && saldoInicial == old(saldoInicial)
      ensures responsable == old(responsable) && fechaApertura == old(fechaApertura)
      ensures estado == Cerrada
      ensures old(estado) == Cerrada ==> r == Err(YaCerrada) && fechaCierre == old(fechaCierre)
      ensures old(estado) == Abierta ==> r == Ok(()) && fechaCierre == Some(ahora)
    {
      if estado == Cerrada {
        return Err(YaCerrada);
      }
      estado := Cerrada;
      fechaCierre := Some(ahora);
      r := Ok(());
    }

    /** The balance update of `MovimientoCaja.save`, on the movement's register. */
    method Aplicar(m: MovimientoCaja)
      requires Valid()
      modifies this
      ensures Valid() && registrados == old(registrados) + [m]
      ensures saldoActual == old(saldoActual) + Signo(m.tipo) * m.monto
      ensures saldoInicial == old(saldoInicial) && estado == old(estado) && responsable == old(responsable)
      ensures fechaApertura == old(fechaApertura) && fechaCierre == old(fechaCierre)
    {
      NetoAppend(registrados, m);
      if m.tipo == Ingreso {
        saldoActual := saldoActual + m.monto;
      } else {
        saldoActual := saldoActual - m.monto;
      }
      registrados := registrados + [m];
    }
  }

  /** The MovimientoCaja table. */
  class LibroCaja {
    var movimientos: seq<MovimientoCaja>

    constructor ()
      ensures movimientos == []
    {
      movimientos := [];
    }

    /**
     * `MovimientoCaja.save` of a new movement on `caja`, the register it names: the row is
     * stored and the register's balance moves; nothing else on the register changes. `clean`
     * is not part of saving.
     */
    method Guardar(caja: Caja, m: MovimientoCaja)
      requires caja.Valid() && m.caja == caja.id
      modifies this, caja
      ensures caja.Valid() && movimientos == old(movimientos) + [m]
      ensures caja.registrados == old(caja.registrados) + [m]
      ensures caja.saldoActual == old(caja.saldoActual) + Signo(m.tipo) * m.monto
      ensures caja.saldoInicial == old(caja.saldoInicial) && caja.estado == old(caja.estado)
      ensures caja.responsable == old(caja.responsable)
      ensures caja.fechaApertura == old(caja.fechaApertura) && caja.fechaCierre == old(caja.fechaCierre)
    {
      movimientos := movimientos + [m];
      caja.Aplicar(m);
    }
  }

  /**
   * `MovimientoCaja.objects.filter(venta=v).first()` under the `-fecha` ordering: the most
   * recently saved movement of sale `v`, as a position in the table.
   */
  function UltimoDeVenta(ms: seq<MovimientoCaja>, v: nat): (r: Option<nat>)
    ensures r.Some? ==> r.value < |ms| && ms[r.value].venta == Some(v)
    ensures r.Some? ==> forall i :: r.value < i < |ms| ==> ms[i].venta != Some(v)
    ensures r.None? ==> forall i :: 0 <= i < |ms| ==> ms[i].venta != Some(v)
  {
    if ms == [] then None
    else if ms[|ms| - 1].venta == Some(v) then Some(|ms| - 1)
    else UltimoDeVenta(ms[..|ms| - 1], v)
  }
}
