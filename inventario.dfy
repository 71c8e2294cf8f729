/**
 * The inventory stock ledger of almacen/models.py: the Stock table keyed by
 * (producto, almacen), the inventory movements (ENTRADA, SALIDA, AJUSTE_FALTANTE,
 * AJUSTE_SOBRANTE) and the way saving, editing and deleting a movement moves stock.
 */
module Inventario {
  import opened Base

  type ProductoId = nat
  type AlmacenId = nat
  type UsuarioId = nat

  datatype StockKey = StockKey(producto: ProductoId, almacen: AlmacenId)

  /** The Stock table: one row per (producto, almacen) pair that has a row. */
  type StockMap = map<StockKey, int>

  datatype TipoMovimiento = Entrada | Salida | AjusteFaltante | AjusteSobrante

  datatype Movimiento = Movimiento(
    producto: ProductoId,
    almacen: AlmacenId,
    cantidad: nat,
    tipo: TipoMovimiento,
    usuario: UsuarioId,
    motivo: string)
  {
    function Key(): StockKey { StockKey(producto, almacen) }
  }

  /** `get_effect_on_stock`: +1 for the types that add stock, -1 for every other type. */
  function Effect(t: TipoMovimiento): (e: int)
    ensures e == 1 || e == -1
  {
    if t == Entrada || t == AjusteSobrante then 1 else -1
  }

  /** The types `clean` checks against the available stock: SALIDA and AJUSTE_FALTANTE. */
  predicate IsOutflow(t: TipoMovimiento)
  {
    t == Salida || t == AjusteFaltante
  }

  /** The types `clean` guards are exactly the ones whose effect lowers the stock. */
  lemma OutflowIffNegativeEffect(t: TipoMovimiento)
    ensures IsOutflow(t) <==> Effect(t) == -1
    ensures Effect(Entrada) == -Effect(Salida) && Effect(AjusteSobrante) == -Effect(AjusteFaltante)
  {
  }

  /** The quantity a key holds, reading a missing row as 0 (what `get_or_create` starts from). */
  function Cantidad(s: StockMap, k: StockKey): int
  {
    if k in s then s[k] else 0
  }

  /**
   * `_update_stock`: fetch or create (at 0) the row for `k` and add `cantidad * effect`.
   * Only that row changes; it is created when missing.
   */
  function UpdateStock(s: StockMap, k: StockKey, cantidad: int, effect: int): (r: StockMap)
    ensures r.Keys == s.Keys + {k}
    ensures r[k] == Cantidad(s, k) + cantidad * effect
    ensures forall k' :: k' in s && k' != k ==> r[k'] == s[k']
  {
    s[k := Cantidad(s, k) + cantidad * effect]
  }

  /** What a movement contributes to the quantity at `k`. */
  function Contribution(m: Movimiento, k: StockKey): int
  {
    if m.Key() == k then m.cantidad * Effect(m.tipo) else 0
  }

  /**
   * `MovimientoInventario.save`: `stored` is the row as it is in the database before the
   * save (None when the movement is new). An update first reverts the stored movement's
   * effect on its own key, then applies the new movement's effect.
   */
  function SaveMovimiento(s: StockMap, stored: Option<Movimiento>, m: Movimiento): StockMap
  {
    var reverted :=
      if stored.Some? then UpdateStock(s, stored.value.Key(), stored.value.cantidad, -Effect(stored.value.tipo))
      else s;
    UpdateStock(reverted, m.Key(), m.cantidad, Effect(m.tipo))
  }

  /** Creating a movement touches only its own key, by cantidad x effect, starting from 0. */
  lemma CreateTouchesOnlyItsKey(s: StockMap, m: Movimiento)
    ensures var r := SaveMovimiento(s, None, m);
      r.Keys == s.Keys + {m.Key()}
      && (forall k :: k in r ==> r[k] == Cantidad(s, k) + Contribution(m, k))
  {
  }

  /**
   * Editing: every key ends at its old quantity, minus what the stored movement contributed,
   * plus what the new one contributes; only the two movements' keys can gain a row.
   */
  lemma EditNetEffect(s: StockMap, stored: Movimiento, m: Movimiento)
    ensures var r := SaveMovimiento(s, Some(stored), m);
      r.Keys == s.Keys + {stored.Key(), m.Key()}
      && (forall k :: k in r ==> r[k] == Cantidad(s, k) - Contribution(stored, k) + Contribution(m, k))
  {
    var reverted := UpdateStock(s, stored.Key(), stored.cantidad, -Effect(stored.tipo));
    forall k | k in SaveMovimiento(s, Some(stored), m)
      ensures SaveMovimiento(s, Some(stored), m)[k] == Cantidad(s, k) - Contribution(stored, k) + Contribution(m, k)
    {
      assert Cantidad(reverted, k) == Cantidad(s, k) - Contribution(stored, k);
    }
  }

  /** Editing a movement and then editing it back restores every existing row. */
  lemma EditBackRestores(s: StockMap, stored: Movimiento, m: Movimiento)
    ensures var r := SaveMovimiento(SaveMovimiento(s, Some(stored), m), Some(m), stored);
      r.Keys == s.Keys + {stored.Key(), m.Key()}
      && (forall k :: k in r ==> r[k] == Cantidad(s, k))
  {
    var once := SaveMovimiento(s, Some(stored), m);
    EditNetEffect(s, stored, m);
    EditNetEffect(once, m, stored);
    forall k | k in SaveMovimiento(once, Some(m), stored)
      ensures SaveMovimiento(once, Some(m), stored)[k] == Cantidad(s, k)
    {
      assert Cantidad(once, k) == Cantidad(s, k) - Contribution(stored, k) + Contribution(m, k);
    }
  }

  /** `revert_stock_on_delete`: subtract the movement's effect if its row exists, else nothing. */
  function RevertOnDelete(s: StockMap, m: Movimiento): (r: StockMap)
    ensures r.Keys == s.Keys
    ensures m.Key() !in s ==> r == s
  {
    if m.Key() in s then s[m.Key() := s[m.Key()] - m.cantidad * Effect(m.tipo)] else s
  }

  /**
   * Creating and then deleting a movement restores the stock; the only trace left is the
   * row created at 0 when none existed.
   */
  lemma CreateThenDeleteRestores(s: StockMap, m: Movimiento)
    ensures RevertOnDelete(SaveMovimiento(s, None, m), m) == s[m.Key() := Cantidad(s, m.Key())]
    ensures m.Key() in s ==> RevertOnDelete(SaveMovimiento(s, None, m), m) == s
  {
  }

  datatype CleanError = StockInsuficiente(disponible: int)

  /**
   * `MovimientoInventario.clean`: an outflow is rejected when a stock row exists and holds
   * less than the requested quantity; with no row there is nothing to compare and no error.
   */
  function Clean(s: StockMap, m: Movimiento): (r: Result<(), CleanError>)
  {
    if IsOutflow(m.tipo) && m.Key() in s && s[m.Key()] < m.cantidad
    then Err(StockInsuficiente(s[m.Key()]))
    else Ok(())
  }

  /** What `clean` buys: a row that was not negative stays non-negative after the new movement. */
  lemma CleanKeepsRowNonNegative(s: StockMap, m: Movimiento)
    requires Clean(s, m).Ok?
    requires m.Key() in s && s[m.Key()] >= 0
    ensures SaveMovimiento(s, None, m)[m.Key()] >= 0
  {
  }

  /** `clean` rejects exactly the outflows larger than an existing row; a missing row never blocks. */
  lemma CleanRejectsIff(s: StockMap, m: Movimiento)
    ensures Clean(s, m).Err? <==> IsOutflow(m.tipo) && m.Key() in s && s[m.Key()] < m.cantidad
    ensures m.Key() !in s ==> Clean(s, m).Ok?
    ensures Clean(s, m).Err? ==> Clean(s, m).error.disponible == s[m.Key()]
  {
  }

  // ---------------------------------------------------------------------------------------
  // The ledger: the Stock table together with the movement table.

  /** The total a sequence of movements contributes at `k`. */
  function NetEffect(ms: seq<Movimiento>, k: StockKey): int
  {
    if ms == [] then 0 else NetEffect(ms[..|ms| - 1], k) + Contribution(ms[|ms| - 1], k)
  }

  lemma {:induction false} NetEffectConcat(a: seq<Movimiento>, b: seq<Movimiento>, k: StockKey)
    ensures NetEffect(a + b, k) == NetEffect(a, k) + NetEffect(b, k)
    decreases |b|
  {
    if b != [] {
      assert (a + b)[..|a + b| - 1] == a + b[..|b| - 1];
      NetEffectConcat(a, b[..|b| - 1], k);
    } else {
      assert a + b == a;
    }
  }

  lemma NetEffectReplace(ms: seq<Movimiento>, i: nat, m: Movimiento, k: StockKey)
    requires i < |ms|
    ensures NetEffect(ms[i := m], k) == NetEffect(ms, k) - Contribution(ms[i], k) + Contribution(m, k)
  {
    assert ms == ms[..i] + [ms[i]] + ms[i + 1..];
    assert ms[i := m] == ms[..i] + [m] + ms[i + 1..];
    NetEffectConcat(ms[..i] + [ms[i]], ms[i + 1..], k);
    NetEffectConcat(ms[..i], [ms[i]], k);
    NetEffectConcat(ms[..i] + [m], ms[i + 1..], k);
    NetEffectConcat(ms[..i], [m], k);
    assert NetEffect([m], k) == Contribution(m, k) by { assert [m][..0] == []; }
    assert NetEffect([ms[i]], k) == Contribution(ms[i], k) by { assert [ms[i]][..0] == []; }
  }

  lemma NetEffectRemove(ms: seq<Movimiento>, i: nat, k: StockKey)
    requires i < |ms|
    ensures NetEffect(ms[..i] + ms[i + 1..], k) == NetEffect(ms, k) - Contribution(ms[i], k)
  {
    assert ms == ms[..i] + [ms[i]] + ms[i + 1..];
    NetEffectConcat(ms[..i] + [ms[i]], ms[i + 1..], k);
    NetEffectConcat(ms[..i], [ms[i]], k);
    NetEffectConcat(ms[..i], ms[i + 1..], k);
    assert NetEffect([ms[i]], k) == Contribution(ms[i], k) by { assert [ms[i]][..0] == []; }
  }

  /** Creating the movements `ms` one after the other. */
  function Registrar(s: StockMap, ms: seq<Movimiento>): StockMap
  {
    if ms == [] then s else SaveMovimiento(Registrar(s, ms[..|ms| - 1]), None, ms[|ms| - 1])
  }

  /** Creating a run of movements moves every key by their net effect. */
  lemma {:induction false} RegistrarPorClave(s: StockMap, ms: seq<Movimiento>, k: StockKey)
    ensures Cantidad(Registrar(s, ms), k) == Cantidad(s, k) + NetEffect(ms, k)
  {
    if ms != [] {
      RegistrarPorClave(s, ms[..|ms| - 1], k);
      CreateTouchesOnlyItsKey(Registrar(s, ms[..|ms| - 1]), ms[|ms| - 1]);
    }
  }

  lemma RegistrarConcat(s: StockMap, ms: seq<Movimiento>, m: Movimiento)
    ensures Registrar(s, ms + [m]) == SaveMovimiento(Registrar(s, ms), None, m)
  {
    assert (ms + [m])[..|ms|] == ms;
  }

  /** With the keys of `ms` pairwise distinct, the net effect at one movement's key is that movement's alone. */
  lemma {:induction false} NetEffectDistinct(ms: seq<Movimiento>, j: nat)
    requires j < |ms|
    requires forall a, b :: 0 <= a < b < |ms| ==> ms[a].Key() != ms[b].Key()
    ensures NetEffect(ms, ms[j].Key()) == ms[j].cantidad * Effect(ms[j].tipo)
  {
    var n := |ms| - 1;
    if j == n {
      NetEffectAbsent(ms[..n], ms[j].Key());
    } else {
      NetEffectDistinct(ms[..n], j);
    }
  }

  /** Movements on other keys contribute nothing. */
  lemma {:induction false} NetEffectAbsent(ms: seq<Movimiento>, k: StockKey)
    requires forall i :: 0 <= i < |ms| ==> ms[i].Key() != k
    ensures NetEffect(ms, k) == 0
  {
    if ms != [] {
      NetEffectAbsent(ms[..|ms| - 1], k);
    }
  }

  /** The Stock table equals the direct writes plus the recorded movements, whose rows all exist. */
  ghost predicate Accounted(stock: StockMap, ajustes: StockMap, movimientos: seq<Movimiento>)
  {
    && (forall k :: Cantidad(stock, k) == Cantidad(ajustes, k) + NetEffect(movimientos, k))
    && (forall i :: 0 <= i < |movimientos| ==> movimientos[i].Key() in stock)
  }

  /**
   * The almacen tables: Stock rows and inventory movements. Every write to a stock row goes
   * through a movement (`CrearMovimiento`, `EditarMovimiento`, `EliminarMovimiento`) or is a
   * direct row write (`AjustarStock`, used by conversions and transfers); the ghost `ajustes`
   * accumulates the direct writes, so the table always equals those plus the net effect of
   * the recorded movements.
   */
  class InventarioDb {
    var stock: StockMap
    var movimientos: seq<Movimiento>
    ghost var ajustes: StockMap

    ghost predicate Valid()
      reads this
    {
      Accounted(stock, ajustes, movimientos)
    }

    constructor (inicial: StockMap)
      ensures Valid() && stock == inicial && movimientos == []
    {
      stock := inicial;
      movimientos := [];
      ajustes := inicial;
    }

    /** `Stock.objects.filter(producto=..., almacen=...).first()`. */
    function Fila(k: StockKey): (r: Option<int>)
      reads this
      ensures r.Some? <==> k in stock
      ensures r.Some? ==> r.value == stock[k]
    {
      if k in stock then Some(stock[k]) else None
    }

    /** `MovimientoInventario.objects.create(...)`: record the movement and apply its effect. */
    method CrearMovimiento(m: Movimiento)
      requires Valid()
      modifies this
      ensures Valid()
      ensures stock == SaveMovimiento(old(stock), None, m)
      ensures movimientos == old(movimientos) + [m]
    {
      stock := SaveMovimiento(stock, None, m);
      movimientos := movimientos + [m];
      forall k ensures Cantidad(stock, k) == Cantidad(ajustes, k) + NetEffect(movimientos, k) {
        assert movimientos[..|movimientos| - 1] == old(movimientos);
        CreateTouchesOnlyItsKey(old(stock), m);
      }
    }

    /** Saving the edited movement number `i`: revert the stored version, apply the new one. */
    method EditarMovimiento(i: nat, m: Movimiento)
      requires Valid() && i < |movimientos|
      modifies this
      ensures Valid()
      ensures stock == SaveMovimiento(old(stock), Some(old(movimientos[i])), m)
      ensures movimientos == old(movimientos)[i := m]
    {
      var stored := movimientos[i];
      stock := SaveMovimiento(stock, Some(stored), m);
      movimientos := movimientos[i := m];
      EditNetEffect(old(stock), stored, m);
      forall k ensures Cantidad(stock, k) == Cantidad(ajustes, k) + NetEffect(movimientos, k) {
        NetEffectReplace(old(movimientos), i, m, k);
      }
    }

    /** Deleting movement number `i`, with the `post_delete` receiver reverting its effect. */
    method EliminarMovimiento(i: nat)
      requires Valid() && i < |movimientos|
      modifies this
      ensures Valid()
      ensures stock == RevertOnDelete(old(stock), old(movimientos[i]))
      ensures movimientos == old(movimientos[..i] + movimientos[i + 1..])
    {
      var m := movimientos[i];
      stock := RevertOnDelete(stock, m);
      movimientos := movimientos[..i] + movimientos[i + 1..];
      forall k ensures Cantidad(stock, k) == Cantidad(ajustes, k) + NetEffect(movimientos, k) {
        NetEffectRemove(old(movimientos), i, k);
      }
      forall j | 0 <= j < |movimientos| ensures movimientos[j].Key() in stock {
        if j < i {
          assert movimientos[j] == old(movimientos)[j];
        } else {
          assert movimientos[j] == old(movimientos)[j + 1];
        }
      }
    }

    /** A direct `stock.cantidad += delta; stock.save()` on the row for `k`, created at 0 if missing. */
    method AjustarStock(k: StockKey, delta: int)
      requires Valid()
      modifies this
      ensures Valid()
      ensures stock == UpdateStock(old(stock), k, delta, 1)
      ensures movimientos == old(movimientos)
    {
      stock := UpdateStock(stock, k, delta, 1);
      ajustes := UpdateStock(ajustes, k, delta, 1);
    }

    /** Creating the movements `ms` one after the other. */
    method CrearTodos(ms: seq<Movimiento>)
      requires Valid()
      modifies this
      ensures Valid()
      ensures stock == Registrar(old(stock), ms) && movimientos == old(movimientos) + ms
    {
      var i := 0;
      while i < |ms|
        invariant 0 <= i <= |ms| && Valid()
        invariant stock == Registrar(old(stock), ms[..i]) && movimientos == old(movimientos) + ms[..i]
      {
        RegistrarConcat(old(stock), ms[..i], ms[i]);
        CrearMovimiento(ms[i]);
        assert ms[..i + 1] == ms[..i] + [ms[i]];
        i := i + 1;
      }
      assert ms[..i] == ms;
    }

    /**
     * Rolling back a `transaction.atomic` block that raised: the Stock table returns to the
     * snapshot `saved` taken when the block began (with its ghost account `savedAjustes`).
     */
    method Rollback(saved: StockMap, ghost savedAjustes: StockMap)
      requires Accounted(saved, savedAjustes, movimientos)
      modifies this
      ensures Valid()
      ensures stock == saved && movimientos == old(movimientos)
    {
      stock := saved;
      ajustes := savedAjustes;
    }

    /**
     * Rolling back a block that also created movements: the Stock table and the movement
     * table both return to the snapshot taken when the block began.
     */
    method RollbackTodo(saved: StockMap, savedMovimientos: seq<Movimiento>, ghost savedAjustes: StockMap)
      requires Accounted(saved, savedAjustes, savedMovimientos)
      modifies this
      ensures Valid()
      ensures stock == saved && movimientos == savedMovimientos
    {
      stock := saved;
      movimientos := savedMovimientos;
      ajustes := savedAjustes;
    }
  }
}
