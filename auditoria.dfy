/**
 * The ledger invariants that `realizar_transaccion` keeps across any
 * sequence of requests: no balance becomes negative, each balance equals
 * its initial balance plus the logged deposits minus the logged
 * withdrawals, and each logged `saldo_resultante` follows from the one
 * before it by that row's signed amount.
 *
 * The balance operations alone (`depositar`, `retirar`) do not keep the
 * second and third invariants: they change a balance without logging it,
 * and it is their caller that appends the row.
 */
module Auditoria {
  import opened Cuentas
  import opened Vistas
  import Serializadores

  /** The total amount of the rows of one kind. */
  function Suma(es: seq<Transaccion>, tipo: Tipo): int {
    if es == [] then 0
    else
      var t := es[|es| - 1];
      Suma(es[..|es| - 1], tipo) + (if t.tipo == tipo then t.cantidad else 0)
  }

  /** Row `k`'s resulting balance is the previous one (for the first row, the initial balance) moved by row `k`. */
  predicate EncadenaEn(inicial: int, es: seq<Transaccion>, k: int)
    requires 0 <= k < |es|
  {
    es[k].saldoResultante == (if k == 0 then inicial else es[k - 1].saldoResultante) + Efecto(es[k].tipo, es[k].cantidad)
  }

  /** Every row's resulting balance chains from the one before it. */
  predicate Encadenado(inicial: int, es: seq<Transaccion>) {
    forall k :: 0 <= k < |es| ==> EncadenaEn(inicial, es, k)
  }

  /** One account's balance agrees with its listing. */
  predicate Cuadra(inicial: int, es: seq<Transaccion>, saldo: int) {
    && saldo == inicial + Suma(es, Deposito) - Suma(es, Retiro)
    && Encadenado(inicial, es)
  }

  /** Every account agrees with its listing, from the balance it was created with. */
  ghost predicate Auditado(l: Libro, iniciales: map<int, int>) {
    forall id :: id in l.cuentas ==>
      id in iniciales && Cuadra(iniciales[id], PorCuenta(l.transacciones, id), l.cuentas[id].saldo)
  }

  predicate SaldosNoNegativos(l: Libro) {
    forall id :: id in l.cuentas ==> l.cuentas[id].saldo >= 0
  }

  /** In a chained listing the last resulting balance is the initial balance plus deposits minus withdrawals. */
  lemma {:induction false} UltimoResultante(inicial: int, es: seq<Transaccion>)
    requires Encadenado(inicial, es) && es != []
    ensures es[|es| - 1].saldoResultante == inicial + Suma(es, Deposito) - Suma(es, Retiro)
  {
    var previos := es[..|es| - 1];
    assert Encadenado(inicial, previos) by {
      forall k | 0 <= k < |previos|
        ensures EncadenaEn(inicial, previos, k)
      {
        assert EncadenaEn(inicial, es, k);
        assert previos[k] == es[k];
        if k > 0 {
          assert previos[k - 1] == es[k - 1];
        }
      }
    }
    var n := |es| - 1;
    assert EncadenaEn(inicial, es, n);
    if previos != [] {
      UltimoResultante(inicial, previos);
      assert previos[n - 1] == es[n - 1];
    }
  }

  /** The audit trail can be replayed: an account's last resulting balance is its current balance. */
  lemma SaldoEsUltimoResultante(l: Libro, iniciales: map<int, int>, cuentaId: int)
    requires Auditado(l, iniciales) && cuentaId in l.cuentas
    requires PorCuenta(l.transacciones, cuentaId) != []
    ensures var es := PorCuenta(l.transacciones, cuentaId);
      es[|es| - 1].saldoResultante == l.cuentas[cuentaId].saldo
  {
    UltimoResultante(iniciales[cuentaId], PorCuenta(l.transacciones, cuentaId));
  }

  /** Appending a row whose resulting balance is the balance moved by it keeps the account in agreement. */
  lemma CuadraAnexar(inicial: int, es: seq<Transaccion>, saldo: int, t: Transaccion)
    requires Cuadra(inicial, es, saldo)
    requires t.saldoResultante == saldo + Efecto(t.tipo, t.cantidad)
    ensures Cuadra(inicial, es + [t], t.saldoResultante)
  {
    var es' := es + [t];
    assert es'[..|es'| - 1] == es;
    if es != [] {
      UltimoResultante(inicial, es);
    }
    forall k | 0 <= k < |es'|
      ensures EncadenaEn(inicial, es', k)
    {
      if k < |es| {
        assert EncadenaEn(inicial, es, k);
        assert es'[k] == es[k];
        if k > 0 {
          assert es'[k - 1] == es[k - 1];
        }
      }
    }
  }

  /** `realizar_transaccion` keeps every account in agreement with its listing. */
  lemma RealizarAuditado(l: Libro, iniciales: map<int, int>, cuentaId: int, tipo: Tipo, cantidad: int)
    requires Auditado(l, iniciales)
    ensures Auditado(Realizar(l, cuentaId, tipo, cantidad).0, iniciales)
  {
    var (l', r) := Realizar(l, cuentaId, tipo, cantidad);
    if r.Creada? {
      RealizarCreada(l, cuentaId, tipo, cantidad);
      var t := l'.transacciones[|l'.transacciones| - 1];
      assert l'.transacciones == l.transacciones + [t];
      forall id | id in l'.cuentas
        ensures id in iniciales && Cuadra(iniciales[id], PorCuenta(l'.transacciones, id), l'.cuentas[id].saldo)
      {
        PorCuentaAnexar(l.transacciones, t, id);
        if id == cuentaId {
          CuadraAnexar(iniciales[id], PorCuenta(l.transacciones, id), l.cuentas[id].saldo, t);
        }
      }
    } else {
      RealizarRechazo(l, cuentaId, tipo, cantidad);
    }
  }

  /** `realizar_transaccion` never makes a balance negative. */
  lemma RealizarNoNegativo(l: Libro, cuentaId: int, tipo: Tipo, cantidad: int)
    requires SaldosNoNegativos(l)
    ensures SaldosNoNegativos(Realizar(l, cuentaId, tipo, cantidad).0)
  {
    RealizarCreada(l, cuentaId, tipo, cantidad);
    RealizarRechazo(l, cuentaId, tipo, cantidad);
  }

  /** A new account, which has no rows yet, agrees with its (empty) listing from its opening balance. */
  lemma CreadoAuditado(l: Libro, iniciales: map<int, int>, numero: string, propietario: string, saldo: int)
    requires LibroValido(l) && Auditado(l, iniciales)
    ensures var (l', r) := Creado(l, numero, propietario, saldo);
      Auditado(l', if r.Ok? then iniciales[r.valor := saldo] else iniciales)
  {
    var (l', r) := Creado(l, numero, propietario, saldo);
    if r.Ok? {
      var id := r.valor;
      assert id !in l.cuentas;
      assert PorCuenta(l.transacciones, id) == [] by {
        if PorCuenta(l.transacciones, id) != [] {
          var t := PorCuenta(l.transacciones, id)[0];
          PorCuentaPertenencia(l.transacciones, id, t);
          assert false;
        }
      }
    }
  }

  /** The empty database trivially satisfies every invariant. */
  lemma VacioAuditado()
    ensures LibroValido(LibroVacio()) && SaldosNoNegativos(LibroVacio()) && Auditado(LibroVacio(), map[])
  {
  }

  /** Any sequence of validated requests, each answered by `realizar_transaccion` in turn. */
  function RealizarTodas(l: Libro, pedidos: seq<Serializadores.Pedido>): Libro {
    if pedidos == [] then l
    else
      var p := pedidos[|pedidos| - 1];
      Realizar(RealizarTodas(l, pedidos[..|pedidos| - 1]), p.cuentaId, p.tipo, p.cantidad).0
  }

  /**
   * Across any sequence of requests, the row invariants hold, no balance is
   * negative, and every balance equals its initial balance plus the logged
   * deposits minus the logged withdrawals, with a chained audit trail.
   */
  lemma {:induction false} RealizarTodasAuditado(l: Libro, iniciales: map<int, int>, pedidos: seq<Serializadores.Pedido>)
    requires LibroValido(l) && SaldosNoNegativos(l) && Auditado(l, iniciales)
    ensures var l' := RealizarTodas(l, pedidos);
      LibroValido(l') && SaldosNoNegativos(l') && Auditado(l', iniciales)
  {
    if pedidos != [] {
      var previos := pedidos[..|pedidos| - 1];
      var p := pedidos[|pedidos| - 1];
      RealizarTodasAuditado(l, iniciales, previos);
      var m := RealizarTodas(l, previos);
      RealizarValido(m, p.cuentaId, p.tipo, p.cantidad);
      RealizarNoNegativo(m, p.cuentaId, p.tipo, p.cantidad);
      RealizarAuditado(m, iniciales, p.cuentaId, p.tipo, p.cantidad);
    }
  }
}
