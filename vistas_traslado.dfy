/**
 * The transfer views of almacen/views.py: `procesar_traslado` (the origin's responsable
 * sends the requested quantities, which leave the origin's stock) and `recibir_traslado`
 * (the destination's responsable records what arrived; each saved detail files an ENTRADA
 * through the post_save receiver). The POST body is a map from field name to text.
 */
module VistasTraslado {
  import opened Base
  import opened PyText
  import opened Inventario
  import opened Traslados

  type Post = map<string, string>

  /** The form field of a detail: `detalle-<id>-<campo>`. */
  function Clave(id: nat, campo: string): string
  {
    "detalle-" + NatToString(id) + "-" + campo
  }

  /** `request.POST.get(key, '0')`. */
  function Get(post: Post, key: string): (r: string)
    ensures key !in post ==> r == "0"
    ensures key in post ==> r == post[key]
  {
    if key in post then post[key] else "0"
  }

  datatype TrasladoError =
    | SinPermiso
    | EstadoInvalido
    | ValorInvalido(producto: ProductoId)
    | NoPositiva(producto: ProductoId)
    | MasQueSolicitado(producto: ProductoId, solicitada: nat)
    | SinStockOrigen(producto: ProductoId)
    | OrigenInsuficiente(producto: ProductoId, disponible: int, pedido: nat)
    | MasQueEnviado(producto: ProductoId, enviada: nat)
    /** `request.user.perfil` raises: the user has no profile. */
    | SinPerfil

  // ---------------------------------------------------------------------------------------
  // A per-detail check run in order, stopping at the first failure

  /**
   * The accepted quantities of the detail checks `rs` up to the first failure, and that
   * failure (None when every check passed).
   */
  function Prefijo(rs: seq<Result<nat, TrasladoError>>): (r: (seq<nat>, Option<TrasladoError>))
    ensures |r.0| <= |rs|
    ensures forall i :: 0 <= i < |r.0| ==> rs[i] == Ok(r.0[i])
    ensures r.1.None? <==> |r.0| == |rs|
    ensures r.1.Some? ==> rs[|r.0|] == Err(r.1.value)
  {
    if rs == [] then ([], None)
    else match rs[0]
      case Err(e) => ([], Some(e))
      case Ok(c) =>
        var t := Prefijo(rs[1..]);
        ([c] + t.0, t.1)
  }

  /** The prefix and failure are determined: any accepted prefix followed by the end or a failure is it. */
  lemma {:induction false} PrefijoUnico(rs: seq<Result<nat, TrasladoError>>, cs: seq<nat>, e: Option<TrasladoError>)
    requires |cs| <= |rs| && forall i :: 0 <= i < |cs| ==> rs[i] == Ok(cs[i])
    requires e.None? <==> |cs| == |rs|
    requires e.Some? ==> rs[|cs|] == Err(e.value)
    ensures Prefijo(rs) == (cs, e)
    decreases |rs|
  {
    if rs != [] && cs != [] {
      PrefijoUnico(rs[1..], cs[1..], e);
      assert [cs[0]] + cs[1..] == cs;
    }
  }

  // ---------------------------------------------------------------------------------------
  // procesar_traslado

  /**
   * The first pass's check of one detail against the stock `s`: the stripped field must parse
   * as an integer, be positive, not exceed the requested quantity, and the origin must hold a
   * row with at least that much.
   */
  function CantidadEnviada(post: Post, d: Detalle, s: StockMap, origen: AlmacenId): (r: Result<nat, TrasladoError>)
    ensures r.Ok? ==> (0 < r.value <= d.solicitada && StockKey(d.producto, origen) in s
      && r.value <= s[StockKey(d.producto, origen)])
  {
    match ParseInt(Strip(Get(post, Clave(d.id, "cantidad_enviada"))))
    case None => Err(ValorInvalido(d.producto))
    case Some(c) =>
      if c <= 0 then Err(NoPositiva(d.producto))
      else if c > d.solicitada then Err(MasQueSolicitado(d.producto, d.solicitada))
      else if StockKey(d.producto, origen) !in s then Err(SinStockOrigen(d.producto))
      else if s[StockKey(d.producto, origen)] < c then
        Err(OrigenInsuficiente(d.producto, s[StockKey(d.producto, origen)], c as nat))
      else Ok(c as nat)
  }

  /** The check of every detail, in order. */
  function Comprobaciones(post: Post, ds: seq<Detalle>, s: StockMap, origen: AlmacenId): (r: seq<Result<nat, TrasladoError>>)
    ensures |r| == |ds|
  {
    if ds == [] then [] else [CantidadEnviada(post, ds[0], s, origen)] + Comprobaciones(post, ds[1..], s, origen)
  }

  lemma {:induction false} ComprobacionEn(post: Post, ds: seq<Detalle>, s: StockMap, origen: AlmacenId, i: nat)
    requires i < |ds|
    ensures Comprobaciones(post, ds, s, origen)[i] == CantidadEnviada(post, ds[i], s, origen)
  {
    var rs := Comprobaciones(post, ds, s, origen);
    assert rs == [CantidadEnviada(post, ds[0], s, origen)] + Comprobaciones(post, ds[1..], s, origen);
    if i > 0 {
      ComprobacionEn(post, ds[1..], s, origen, i - 1);
      assert ds[1..][i - 1] == ds[i];
    }
  }

  /** The check of detail `i`, as the first pass runs it; an accepted one has its origin row. */
  method ComprobarEnviada(post: Post, ds: seq<Detalle>, s: StockMap, origen: AlmacenId, i: nat)
    returns (c: Result<nat, TrasladoError>)
    requires i < |ds|
    ensures c == Comprobaciones(post, ds, s, origen)[i]
    ensures c.Ok? ==> StockKey(ds[i].producto, origen) in s
  {
    c := CantidadEnviada(post, ds[i], s, origen);
    ComprobacionEn(post, ds, s, origen, i);
  }

  /** The outcome of the first pass over every detail. */
  function PrimeraPasada(post: Post, ds: seq<Detalle>, s: StockMap, origen: AlmacenId): (r: (seq<nat>, Option<TrasladoError>))
  {
    Prefijo(Comprobaciones(post, ds, s, origen))
  }

  /** What `procesar_traslado` answers. */
  function ResultadoProcesar(s: StockMap, estado: EstadoTraslado, ds: seq<Detalle>, post: Post, usuario: UsuarioId,
                             responsableOrigen: Option<UsuarioId>, origen: AlmacenId, perfil: Option<UsuarioId>)
    : Result<(), TrasladoError>
  {
    if Some(usuario) != responsableOrigen then Err(SinPermiso)
    else if estado != Pendiente then Err(EstadoInvalido)
    else
      var pasada := PrimeraPasada(post, ds, s, origen);
      if pasada.1.Some? then Err(pasada.1.value)
      else if perfil.None? then Err(SinPerfil)
      else Ok(())
  }

  /** `unique_together = ('traslado', 'producto')`. */
  predicate ProductosDistintos(ds: seq<Detalle>)
  {
    forall i, j :: 0 <= i < j < |ds| ==> ds[i].producto != ds[j].producto
  }

  /** The details with the first |cs| sent quantities replaced by `cs`. */
  function Enviados(ds: seq<Detalle>, cs: seq<nat>): (r: seq<Detalle>)
    requires |cs| <= |ds|
    ensures |r| == |ds|
  {
    seq(|ds|, i requires 0 <= i < |ds| => if i < |cs| then ds[i].(enviada := cs[i]) else ds[i])
  }

  /** The stock after the second pass has lowered the origin row of the first |cs| details. */
  function Enviar(s: StockMap, ds: seq<Detalle>, cs: seq<nat>, origen: AlmacenId): StockMap
    requires |cs| <= |ds|
  {
    if cs == [] then s
    else
      var n := |cs| - 1;
      UpdateStock(Enviar(s, ds, cs[..n], origen), StockKey(ds[n].producto, origen), cs[n], -1)
  }

  /** A row that no sent detail names keeps its quantity and its presence. */
  lemma {:induction false} EnviarFuera(s: StockMap, ds: seq<Detalle>, cs: seq<nat>, origen: AlmacenId, k: StockKey)
    requires |cs| <= |ds|
    requires forall j :: 0 <= j < |cs| ==> StockKey(ds[j].producto, origen) != k
    ensures Cantidad(Enviar(s, ds, cs, origen), k) == Cantidad(s, k)
    ensures k in Enviar(s, ds, cs, origen) <==> k in s
  {
    if cs != [] {
      EnviarFuera(s, ds, cs[..|cs| - 1], origen, k);
    }
  }

  /** With distinct products, the origin row of sent detail j is lowered by exactly its quantity. */
  lemma {:induction false} EnviarEn(s: StockMap, ds: seq<Detalle>, cs: seq<nat>, origen: AlmacenId, j: nat)
    requires |cs| <= |ds| && ProductosDistintos(ds) && j < |cs|
    ensures var k := StockKey(ds[j].producto, origen);
      k in Enviar(s, ds, cs, origen) && Cantidad(Enviar(s, ds, cs, origen), k) == Cantidad(s, k) - cs[j]
  {
    var n := |cs| - 1;
    var k := StockKey(ds[j].producto, origen);
    if j == n {
      EnviarFuera(s, ds, cs[..n], origen, k);
    } else {
      EnviarEn(s, ds, cs[..n], origen, j);
    }
  }

  /**
   * A first pass that succeeded keeps every origin row it lowers at or above zero, when it
   * was so before.
   */
  lemma ProcesarNoNegativo(post: Post, ds: seq<Detalle>, s: StockMap, origen: AlmacenId, j: nat)
    requires ProductosDistintos(ds) && j < |ds|
    requires PrimeraPasada(post, ds, s, origen).1.None?
    ensures var cs := PrimeraPasada(post, ds, s, origen).0;
      var k := StockKey(ds[j].producto, origen);
      k in s && Cantidad(Enviar(s, ds, cs, origen), k) == s[k] - cs[j] >= 0
  {
    var cs := PrimeraPasada(post, ds, s, origen).0;
    var rs := Comprobaciones(post, ds, s, origen);
    assert rs[j] == Ok(cs[j]);
    ComprobacionEn(post, ds, s, origen, j);
    EnviarEn(s, ds, cs, origen, j);
  }

  /** A successful first pass sends, for every detail, a quantity between one and what was requested. */
  lemma ProcesarRespetaSolicitud(post: Post, ds: seq<Detalle>, s: StockMap, origen: AlmacenId, j: nat)
    requires j < |ds|
    requires PrimeraPasada(post, ds, s, origen).1.None?
    ensures var cs := PrimeraPasada(post, ds, s, origen).0;
      var e := Enviados(ds, cs)[j];
      1 <= e.enviada <= e.solicitada && e.producto == ds[j].producto && e.recibida == ds[j].recibida
  {
    var cs := PrimeraPasada(post, ds, s, origen).0;
    var rs := Comprobaciones(post, ds, s, origen);
    assert rs[j] == Ok(cs[j]);
    ComprobacionEn(post, ds, s, origen, j);
  }

  /**
   * The first pass of `procesar_traslado`: every detail is checked in order against the stock,
   * stopping at the first failure; nothing is changed. Also returns the origin quantity read
   * for each accepted detail.
   */
  method ValidarEnvio(db: InventarioDb, ds: seq<Detalle>, post: Post, origen: AlmacenId)
    returns (cs: seq<nat>, error: Option<TrasladoError>, leidos: seq<int>)
    ensures (cs, error) == PrimeraPasada(post, ds, db.stock, origen)
    ensures |leidos| == |cs|
    ensures forall j :: 0 <= j < |cs| ==> leidos[j] == Cantidad(db.stock, StockKey(ds[j].producto, origen))
  {
    var s := db.stock;
    ghost var rs := Comprobaciones(post, ds, s, origen);
    cs, leidos := [], [];
    var i := 0;
    while i < |ds|
      invariant i == |cs| && Anotadas(rs, ds, s, origen, cs, leidos)
      decreases |ds| - i
    {
      var c := ComprobarEnviada(post, ds, s, origen, i);
      if c.Err? {
        PrefijoUnico(rs, cs, Some(c.error));
        return cs, Some(c.error), leidos;
      }
      cs, leidos := Anotar(db, rs, ds, origen, cs, leidos, c.value);
      i := i + 1;
    }
    PrefijoUnico(rs, cs, None);
    error := None;
  }

  /**
   * The first `|cs|` checks of `rs` accepted the quantities `cs`, and `leidos` holds the origin
   * quantities they read from `s`.
   */
  ghost predicate Anotadas(rs: seq<Result<nat, TrasladoError>>, ds: seq<Detalle>, s: StockMap, origen: AlmacenId,
                           cs: seq<nat>, leidos: seq<int>)
  {
    && |rs| == |ds| && |cs| == |leidos| <= |rs|
    && (forall j :: 0 <= j < |cs| ==> rs[j] == Ok(cs[j]))
    && (forall j :: 0 <= j < |cs| ==> leidos[j] == Cantidad(s, StockKey(ds[j].producto, origen)))
  }

  /** One accepted detail of the first pass: its quantity is kept and its origin row read. */
  method Anotar(db: InventarioDb, ghost rs: seq<Result<nat, TrasladoError>>, ds: seq<Detalle>, origen: AlmacenId,
                cs: seq<nat>, leidos: seq<int>, c: nat)
    returns (cs2: seq<nat>, leidos2: seq<int>)
    requires Anotadas(rs, ds, db.stock, origen, cs, leidos) && |cs| < |rs| && rs[|cs|] == Ok(c)
    requires StockKey(ds[|cs|].producto, origen) in db.stock
    ensures cs2 == cs + [c] && leidos2 == leidos + [db.stock[StockKey(ds[|cs|].producto, origen)]]
    ensures Anotadas(rs, ds, db.stock, origen, cs2, leidos2)
  {
    var fila := db.Fila(StockKey(ds[|cs|].producto, origen));
    cs2, leidos2 := cs + [c], leidos + [fila.value];
  }

  /**
   * The second pass of `procesar_traslado`: each detail is saved with its sent quantity and its
   * origin row is written back as the quantity read in the first pass less the one sent.
   */
  method EnviarDetalles(db: InventarioDb, t: Traslado, cs: seq<nat>, leidos: seq<int>, origen: AlmacenId, ahora: Fecha)
    requires db.Valid() && ProductosDistintos(t.detalles)
    requires |cs| == |t.detalles| && |leidos| == |cs|
    requires forall j :: 0 <= j < |cs| ==> leidos[j] == Cantidad(db.stock, StockKey(t.detalles[j].producto, origen))
    modifies db, t
    ensures db.Valid() && db.movimientos == old(db.movimientos)
    ensures db.stock == Enviar(old(db.stock), old(t.detalles), cs, origen)
    ensures t.detalles == Enviados(old(t.detalles), cs)
    ensures t.Fijos() == old(t.Fijos()) && t.responsable == old(t.responsable)
    ensures t.fechaCompletado == old(t.fechaCompletado)
  {
    var ds := t.detalles;
    ghost var s0 := db.stock;
    var j := 0;
    while j < |ds|
      invariant 0 <= j <= |ds|
      invariant db.Valid() && db.movimientos == old(db.movimientos)
      invariant db.stock == Enviar(s0, ds, cs[..j], origen)
      invariant t.detalles == Enviados(ds, cs[..j])
      invariant t.Fijos() == old(t.Fijos()) && t.responsable == old(t.responsable)
      invariant t.fechaCompletado == old(t.fechaCompletado)
    {
      var k := StockKey(ds[j].producto, origen);
      EnviarFuera(s0, ds, cs[..j], origen, k);
      assert cs[..j + 1] == cs[..j] + [cs[j]];
      GuardarEnviado(db, t, ds, cs[..j], cs[j], leidos[j], origen, ahora);
      j := j + 1;
    }
    assert cs[..j] == cs;
  }

  /**
   * One step of the second pass: detail |cs| is saved with sent quantity `c`, which files no
   * movement, and its origin row is written as `leido - c`.
   */
  method GuardarEnviado(db: InventarioDb, t: Traslado, ds: seq<Detalle>, cs: seq<nat>, c: nat, leido: int,
                        origen: AlmacenId, ahora: Fecha)
    requires db.Valid() && |cs| < |ds| && t.detalles == Enviados(ds, cs)
    requires leido == Cantidad(db.stock, StockKey(ds[|cs|].producto, origen))
    modifies db, t
    ensures db.Valid() && db.movimientos == old(db.movimientos)
    ensures db.stock == UpdateStock(old(db.stock), StockKey(ds[|cs|].producto, origen), c, -1)
    ensures t.detalles == Enviados(ds, cs + [c])
    ensures t.Fijos() == old(t.Fijos()) && t.responsable == old(t.responsable)
    ensures t.fechaCompletado == old(t.fechaCompletado)
  {
    var d := ds[|cs|];
    var k := StockKey(d.producto, origen);
    var inst := Instancia(d.(enviada := c), d.enviada, d.recibida);
    assert !HasChanged(inst, Some(CampoRecibida));
    t.GuardarDetalle(db, |cs|, inst, ahora);
    assert t.detalles == Enviados(ds, cs + [c]);
    db.AjustarStock(k, (leido - c) - Cantidad(db.stock, k));
  }

  /**
   * `procesar_traslado`: refused unless the user is the origin's responsable and the transfer is
   * PENDIENTE; then the two passes; then the transfer gets the user's profile as responsable and
   * turns EN_PROCESO. A failure there (`request.user.perfil` raising) rolls the inner atomic
   * block back.
   */
  method ProcesarTraslado(db: InventarioDb, t: Traslado, post: Post, usuario: UsuarioId,
                          responsableOrigen: Option<UsuarioId>, perfil: Option<UsuarioId>, ahora: Fecha)
    returns (r: Result<(), TrasladoError>)
    requires db.Valid() && ProductosDistintos(t.detalles)
    modifies db, t
    ensures db.Valid() && db.movimientos == old(db.movimientos)
    ensures r == ResultadoProcesar(old(db.stock), old(t.estado), old(t.detalles), post, usuario,
                                   responsableOrigen, t.almacenOrigen, perfil)
    ensures t.Fijos() == old(t.Fijos()) && t.fechaCompletado == old(t.fechaCompletado)
    ensures r.Err? ==> (db.stock == old(db.stock) && t.detalles == old(t.detalles)
      && t.estado == old(t.estado) && t.responsable == old(t.responsable))
    ensures r.Ok? ==> (var cs := PrimeraPasada(post, old(t.detalles), old(db.stock), t.almacenOrigen).0;
      && t.detalles == Enviados(old(t.detalles), cs)
      && db.stock == Enviar(old(db.stock), old(t.detalles), cs, t.almacenOrigen)
      && t.estado == EnProceso && t.responsable == perfil)
  {
    if Some(usuario) != responsableOrigen {
      return Err(SinPermiso);
    }
    if t.estado != Pendiente {
      return Err(EstadoInvalido);
    }
    var cs, error, leidos := ValidarEnvio(db, t.detalles, post, t.almacenOrigen);
    if error.Some? {
      return Err(error.value);
    }
    var s0, detalles0, estado0 := db.stock, t.detalles, t.estado;
    ghost var a0 := db.ajustes;
    EnviarDetalles(db, t, cs, leidos, t.almacenOrigen, ahora);
    if perfil.None? {
      db.Rollback(s0, a0);
      t.detalles, t.estado := detalles0, estado0;
      return Err(SinPerfil);
    }
    t.responsable := perfil;
    t.estado := EnProceso;
    r := Ok(());
  }

  // ---------------------------------------------------------------------------------------
  // recibir_traslado

  /** The check of one received quantity: text that does not parse counts as 0; it must be positive and at most what was sent. */
  function CantidadRecibida(post: Post, d: Detalle): (r: Result<nat, TrasladoError>)
    ensures r.Ok? ==> 0 < r.value <= d.enviada
    ensures r.Err? ==> r.error == NoPositiva(d.producto) || r.error == MasQueEnviado(d.producto, d.enviada)
  {
    var c := match ParseInt(Get(post, Clave(d.id, "cantidad_recibida"))) case Some(v) => v case None => 0;
    if c <= 0 then Err(NoPositiva(d.producto))
    else if c > d.enviada then Err(MasQueEnviado(d.producto, d.enviada))
    else Ok(c as nat)
  }

  /** The check of every received quantity, in order. */
  function Recepciones(post: Post, ds: seq<Detalle>): (r: seq<Result<nat, TrasladoError>>)
    ensures |r| == |ds|
  {
    if ds == [] then [] else [CantidadRecibida(post, ds[0])] + Recepciones(post, ds[1..])
  }

  lemma {:induction false} RecepcionEn(post: Post, ds: seq<Detalle>, i: nat)
    requires i < |ds|
    ensures Recepciones(post, ds)[i] == CantidadRecibida(post, ds[i])
  {
    var rs := Recepciones(post, ds);
    assert rs == [CantidadRecibida(post, ds[0])] + Recepciones(post, ds[1..]);
    if i > 0 {
      RecepcionEn(post, ds[1..], i - 1);
      assert ds[1..][i - 1] == ds[i];
    }
  }

  /** The check of detail `j`, as the loop runs it. */
  method ComprobarRecibida(post: Post, ds: seq<Detalle>, j: nat) returns (c: Result<nat, TrasladoError>)
    requires j < |ds|
    ensures c == Recepciones(post, ds)[j]
  {
    c := CantidadRecibida(post, ds[j]);
    RecepcionEn(post, ds, j);
  }

  /** The quantities accepted before the first failing detail, and that failure. */
  function Recepcion(post: Post, ds: seq<Detalle>): (r: (seq<nat>, Option<TrasladoError>))
  {
    Prefijo(Recepciones(post, ds))
  }

  /** What the transfer contributes to the ENTRADA receiver. */
  datatype Contexto = Contexto(destino: AlmacenId, referencia: string, origenTexto: string,
                               responsable: Option<UsuarioId>, solicitante: UsuarioId)

  /** The loaded detail after its received quantity is set to `c`. */
  function Recibido(d: Detalle, c: nat): (inst: Instancia)
    ensures inst.fila == d.(recibida := c) && inst.originalRecibida == d.recibida
  {
    Instancia(d.(recibida := c), d.enviada, d.recibida)
  }

  /** The receiver files at most one ENTRADA per save: none, or exactly the one it built. */
  function Movimientos(m: Option<Movimiento>): (r: seq<Movimiento>)
    ensures m.None? ==> r == []
    ensures m.Some? ==> r == [m.value]
  {
    if m.Some? then [m.value] else []
  }

  /** The ENTRADAs filed while saving the first |cs| details with those received quantities. */
  function Entradas(ds: seq<Detalle>, cs: seq<nat>, ctx: Contexto): seq<Movimiento>
    requires |cs| <= |ds|
  {
    if cs == [] then []
    else
      var n := |cs| - 1;
      Entradas(ds, cs[..n], ctx)
        + Movimientos(EntradaDe(Recibido(ds[n], cs[n]), ctx.destino, ctx.referencia, ctx.origenTexto,
                                ctx.responsable, ctx.solicitante))
  }

  /** The details with the first |cs| received quantities replaced by `cs`. */
  function Recibidos(ds: seq<Detalle>, cs: seq<nat>): (r: seq<Detalle>)
    requires |cs| <= |ds|
    ensures |r| == |ds|
  {
    seq(|ds|, i requires 0 <= i < |ds| => if i < |cs| then ds[i].(recibida := cs[i]) else ds[i])
  }

  /**
   * On a first reception (nothing received yet) of distinct products, each accepted detail
   * files exactly one ENTRADA of its received quantity into its destination row.
   */
  lemma {:induction false} EntradasPrimeraRecepcion(ds: seq<Detalle>, cs: seq<nat>, ctx: Contexto, j: nat)
    requires |cs| <= |ds| && ProductosDistintos(ds) && j < |cs|
    requires forall i :: 0 <= i < |ds| ==> ds[i].recibida == 0
    requires forall i :: 0 <= i < |cs| ==> cs[i] > 0
    ensures NetEffect(Entradas(ds, cs, ctx), StockKey(ds[j].producto, ctx.destino)) == cs[j]
  {
    var n := |cs| - 1;
    var k := StockKey(ds[j].producto, ctx.destino);
    var previas := Entradas(ds, cs[..n], ctx);
    var ultima := Movimientos(EntradaDe(Recibido(ds[n], cs[n]), ctx.destino, ctx.referencia, ctx.origenTexto,
                                         ctx.responsable, ctx.solicitante));
    NetEffectConcat(previas, ultima, k);
    EntradaNueva(ds[n], cs[n], ctx, k);
    assert j != n ==> ds[j].producto != ds[n].producto;
    if j == n {
      EntradasFuera(ds, cs[..n], ctx, k);
    } else {
      EntradasPrimeraRecepcion(ds, cs[..n], ctx, j);
    }
  }

  /** A detail received for the first time files one ENTRADA of what arrived, into its destination row. */
  lemma EntradaNueva(d: Detalle, c: nat, ctx: Contexto, k: StockKey)
    requires d.recibida == 0 && c > 0
    ensures NetEffect(Movimientos(EntradaDe(Recibido(d, c), ctx.destino, ctx.referencia, ctx.origenTexto,
                                            ctx.responsable, ctx.solicitante)), k)
      == (if StockKey(d.producto, ctx.destino) == k then c else 0)
  {
    var m := EntradaDe(Recibido(d, c), ctx.destino, ctx.referencia, ctx.origenTexto, ctx.responsable, ctx.solicitante);
    assert m.Some?;
    var ms := [m.value];
    assert ms[..0] == [];
    assert Effect(Entrada) == 1;
    assert m.value.Key() == StockKey(d.producto, ctx.destino);
  }

  /** ENTRADAs of details of other products leave a destination row alone. */
  lemma {:induction false} EntradasFuera(ds: seq<Detalle>, cs: seq<nat>, ctx: Contexto, k: StockKey)
    requires |cs| <= |ds|
    requires forall i :: 0 <= i < |cs| ==> StockKey(ds[i].producto, ctx.destino) != k
    ensures NetEffect(Entradas(ds, cs, ctx), k) == 0
  {
    if cs != [] {
      var n := |cs| - 1;
      var ultima := Movimientos(EntradaDe(Recibido(ds[n], cs[n]), ctx.destino, ctx.referencia, ctx.origenTexto,
                                           ctx.responsable, ctx.solicitante));
      EntradasFuera(ds, cs[..n], ctx, k);
      NetEffectConcat(Entradas(ds, cs[..n], ctx), ultima, k);
      if ultima != [] {
        assert ultima == [ultima[0]];
      }
    }
  }

  /**
   * The ENTRADA is of the whole received quantity, not of its change: a detail already saved
   * with 2 received (which filed an ENTRADA of 2) and received again as 5 files another ENTRADA
   * of 5, so 7 units enter for 5 sent.
   */
  lemma ReintentoCuentaDosVeces(ctx: Contexto, d: Detalle)
    requires d.enviada == 5 && d.recibida == 0
    ensures var primera := EntradaDe(Recibido(d, 2), ctx.destino, ctx.referencia, ctx.origenTexto, ctx.responsable, ctx.solicitante);
      var segunda := EntradaDe(Recibido(d.(recibida := 2), 5), ctx.destino, ctx.referencia, ctx.origenTexto, ctx.responsable, ctx.solicitante);
      primera.Some? && segunda.Some?
      && NetEffect([primera.value, segunda.value], StockKey(d.producto, ctx.destino)) == 7 > d.enviada
  {
    var primera := EntradaDe(Recibido(d, 2), ctx.destino, ctx.referencia, ctx.origenTexto, ctx.responsable, ctx.solicitante);
    var segunda := EntradaDe(Recibido(d.(recibida := 2), 5), ctx.destino, ctx.referencia, ctx.origenTexto, ctx.responsable, ctx.solicitante);
    var k := StockKey(d.producto, ctx.destino);
    assert [primera.value, segunda.value][..1] == [primera.value];
    assert [primera.value][..0] == [];
    assert Contribution(primera.value, k) == 2 by { assert Effect(Entrada) == 1; }
    assert Contribution(segunda.value, k) == 5 by { assert Effect(Entrada) == 1; }
    assert NetEffect([primera.value], k) == 2;
  }

  /**
   * With the corrected receiver a detail received first as `a` and then again as `b` (no
   * fewer) enters exactly `b` units into its destination row, however the quantity was split.
   */
  lemma ReintentoCorregido(ctx: Contexto, d: Detalle, a: nat, b: nat)
    requires d.recibida == 0 && a <= b
    ensures var primera := EntradaCorregida(Recibido(d, a), ctx.destino, ctx.referencia, ctx.origenTexto, ctx.responsable, ctx.solicitante);
      var segunda := EntradaCorregida(Recibido(d.(recibida := a), b), ctx.destino, ctx.referencia, ctx.origenTexto, ctx.responsable, ctx.solicitante);
      NetEffect(Movimientos(primera) + Movimientos(segunda), StockKey(d.producto, ctx.destino)) == b
  {
    var primera := EntradaCorregida(Recibido(d, a), ctx.destino, ctx.referencia, ctx.origenTexto, ctx.responsable, ctx.solicitante);
    var segunda := EntradaCorregida(Recibido(d.(recibida := a), b), ctx.destino, ctx.referencia, ctx.origenTexto, ctx.responsable, ctx.solicitante);
    var k := StockKey(d.producto, ctx.destino);
    assert Effect(Entrada) == 1;
    NetEffectConcat(Movimientos(primera), Movimientos(segunda), k);
    if primera.Some? {
      assert Movimientos(primera)[..0] == [];
    }
    if segunda.Some? {
      assert Movimientos(segunda)[..0] == [];
    }
  }

  /** What `recibir_traslado` answers. */
  function ResultadoRecibir(estado: EstadoTraslado, ds: seq<Detalle>, post: Post, usuario: UsuarioId,
                            responsableDestino: Option<UsuarioId>): Result<(), TrasladoError>
  {
    if Some(usuario) != responsableDestino then Err(SinPermiso)
    else if estado != EnProceso then Err(EstadoInvalido)
    else
      var rec := Recepcion(post, ds);
      if rec.1.Some? then Err(rec.1.value) else Ok(())
  }

  /** Accepting one more received quantity: one more detail updated, at most one more ENTRADA. */
  lemma RecepcionPaso(s: StockMap, ds: seq<Detalle>, cs: seq<nat>, c: nat, ctx: Contexto)
    requires |cs| < |ds|
    ensures var n := |cs|;
      var nuevas := Movimientos(EntradaDe(Recibido(ds[n], c), ctx.destino, ctx.referencia, ctx.origenTexto,
                                          ctx.responsable, ctx.solicitante));
      && Recibidos(ds, cs)[n := Recibido(ds[n], c).fila] == Recibidos(ds, cs + [c])
      && Entradas(ds, cs + [c], ctx) == Entradas(ds, cs, ctx) + nuevas
      && Registrar(s, Entradas(ds, cs + [c], ctx)) == (if nuevas == [] then Registrar(s, Entradas(ds, cs, ctx))
                                                      else SaveMovimiento(Registrar(s, Entradas(ds, cs, ctx)), None, nuevas[0]))
  {
    var n := |cs|;
    assert (cs + [c])[..n] == cs;
    var nuevas := Movimientos(EntradaDe(Recibido(ds[n], c), ctx.destino, ctx.referencia, ctx.origenTexto,
                                        ctx.responsable, ctx.solicitante));
    if nuevas != [] {
      RegistrarConcat(s, Entradas(ds, cs, ctx), nuevas[0]);
    } else {
      assert Entradas(ds, cs, ctx) + nuevas == Entradas(ds, cs, ctx);
    }
  }

  /**
   * The state of `recibir_traslado` after saving the first |cs| details with those received
   * quantities: the details updated, their ENTRADAs filed and applied, the header unchanged.
   */
  ghost predicate EnRecepcion(db: InventarioDb, t: Traslado, ds: seq<Detalle>, cs: seq<nat>, ctx: Contexto,
                              s0: StockMap, m0: seq<Movimiento>, f0: Encabezado, r0: Option<UsuarioId>,
                              fc0: Option<Fecha>)
    reads db, t
  {
    && |cs| <= |ds|
    && db.Valid() && t.estado == EnProceso
    && ctx == Contexto(t.almacenDestino, t.referencia, t.origenTexto, t.responsable, t.solicitante)
    && t.detalles == Recibidos(ds, cs)
    && db.movimientos == m0 + Entradas(ds, cs, ctx) && db.stock == Registrar(s0, Entradas(ds, cs, ctx))
    && t.Fijos() == f0 && t.responsable == r0 && t.fechaCompletado == fc0
  }

  /** The checks `rs` accepted the quantities `cs`, one for one. */
  ghost predicate Aceptadas(rs: seq<Result<nat, TrasladoError>>, cs: seq<nat>)
  {
    |cs| <= |rs| && forall i :: 0 <= i < |cs| ==> rs[i] == Ok(cs[i])
  }

  lemma AceptadaOtra(rs: seq<Result<nat, TrasladoError>>, cs: seq<nat>, c: nat)
    requires Aceptadas(rs, cs) && |cs| < |rs| && rs[|cs|] == Ok(c)
    ensures Aceptadas(rs, cs + [c])
  {
  }

  /** One step of the loop of `recibir_traslado`: detail |cs| is saved with received quantity `c`. */
  method GuardarRecibido(db: InventarioDb, t: Traslado, ds: seq<Detalle>, cs: seq<nat>, c: nat, ctx: Contexto,
                         ahora: Fecha, ghost s0: StockMap, ghost m0: seq<Movimiento>, ghost f0: Encabezado,
                         ghost r0: Option<UsuarioId>, ghost fc0: Option<Fecha>)
    requires |cs| < |ds| && EnRecepcion(db, t, ds, cs, ctx, s0, m0, f0, r0, fc0)
    modifies db, t
    ensures EnRecepcion(db, t, ds, cs + [c], ctx, s0, m0, f0, r0, fc0)
  {
    var inst := Recibido(ds[|cs|], c);
    ghost var previas := Entradas(ds, cs, ctx);
    ghost var nuevas := Movimientos(EntradaDe(inst, ctx.destino, ctx.referencia, ctx.origenTexto,
                                              ctx.responsable, ctx.solicitante));
    RecepcionPaso(s0, ds, cs, c, ctx);
    ghost var antes := db.stock;
    t.GuardarDetalle(db, |cs|, inst, ahora);
    assert db.movimientos == m0 + previas + nuevas;
    assert db.stock == (if nuevas == [] then antes else SaveMovimiento(antes, None, nuevas[0]));
  }

  /**
   * The loop of `recibir_traslado`: each detail in turn is checked and saved with its received
   * quantity, filing an ENTRADA when that quantity changed; a failing detail stops the loop, the
   * earlier details and their ENTRADAs staying.
   */
  method RecibirDetalles(db: InventarioDb, t: Traslado, post: Post, ahora: Fecha)
    returns (cs: seq<nat>, error: Option<TrasladoError>)
    requires db.Valid() && t.estado == EnProceso
    modifies db, t
    ensures (cs, error) == Recepcion(post, old(t.detalles))
    ensures EnRecepcion(db, t, old(t.detalles), cs,
                        Contexto(t.almacenDestino, t.referencia, t.origenTexto, t.responsable, t.solicitante),
                        old(db.stock), old(db.movimientos), old(t.Fijos()), old(t.responsable), old(t.fechaCompletado))
  {
    var ds := t.detalles;
    var ctx := Contexto(t.almacenDestino, t.referencia, t.origenTexto, t.responsable, t.solicitante);
    ghost var rs := Recepciones(post, ds);
    ghost var s0, m0 := db.stock, db.movimientos;
    cs := [];
    var j := 0;
    while j < |ds|
      invariant 0 <= j <= |ds| && |cs| == j && |rs| == |ds|
      invariant Aceptadas(rs, cs)
      invariant EnRecepcion(db, t, ds, cs, ctx, s0, m0, old(t.Fijos()), old(t.responsable), old(t.fechaCompletado))
    {
      var c := ComprobarRecibida(post, ds, j);
      if c.Err? {
        PrefijoUnico(rs, cs, Some(c.error));
        return cs, Some(c.error);
      }
      GuardarRecibido(db, t, ds, cs, c.value, ctx, ahora, s0, m0, old(t.Fijos()), old(t.responsable), old(t.fechaCompletado));
      AceptadaOtra(rs, cs, c.value);
      cs := cs + [c.value];
      j := j + 1;
    }
    PrefijoUnico(rs, cs, None);
    error := None;
  }

  /**
   * `recibir_traslado`: refused unless the user is the destination's responsable and the
   * transfer is EN_PROCESO; then the loop over the details; when every detail passed, the
   * transfer is COMPLETADO at `ahora`, otherwise its estado is left as it was.
   */
  method RecibirTraslado(db: InventarioDb, t: Traslado, post: Post, usuario: UsuarioId,
                         responsableDestino: Option<UsuarioId>, ahora: Fecha)
    returns (r: Result<(), TrasladoError>)
    requires db.Valid()
    modifies db, t
    ensures db.Valid()
    ensures r == ResultadoRecibir(old(t.estado), old(t.detalles), post, usuario, responsableDestino)
    ensures t.Fijos() == old(t.Fijos()) && t.responsable == old(t.responsable)
    ensures Some(usuario) != responsableDestino || old(t.estado) != EnProceso ==>
      (db.stock == old(db.stock) && db.movimientos == old(db.movimientos)
       && t.detalles == old(t.detalles) && t.estado == old(t.estado) && t.fechaCompletado == old(t.fechaCompletado))
    ensures Some(usuario) == responsableDestino && old(t.estado) == EnProceso ==>
      (var rec := Recepcion(post, old(t.detalles));
       var ctx := Contexto(t.almacenDestino, t.referencia, t.origenTexto, t.responsable, t.solicitante);
       var ms := Entradas(old(t.detalles), rec.0, ctx);
       && t.detalles == Recibidos(old(t.detalles), rec.0)
       && db.movimientos == old(db.movimientos) + ms
       && db.stock == Registrar(old(db.stock), ms)
       && (rec.1.None? ==> t.estado == Completado && t.fechaCompletado == Some(ahora))
       && (rec.1.Some? ==> t.estado == EnProceso && t.fechaCompletado == old(t.fechaCompletado)))
  {
    if Some(usuario) != responsableDestino {
      return Err(SinPermiso);
    }
    if t.estado != EnProceso {
      return Err(EstadoInvalido);
    }
    var cs, error := RecibirDetalles(db, t, post, ahora);
    if error.Some? {
      return Err(error.value);
    }
    t.estado := Completado;
    t.fechaCompletado := Some(ahora);
    r := Ok(());
  }
}
