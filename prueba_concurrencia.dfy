/**
 * The concurrency test of transacciones/tests/test_concurrencia.py, run
 * sequentially: its helper `_realizar_transaccion`, its expected-balance
 * fold, and the two assertions it makes after applying every operation
 * (final balance equals the fold; one log row per operation).
 *
 * The thread pool is replaced by applying the operations one after the
 * other in list order; the randomly generated operation list becomes an
 * arbitrary list.
 */
module PruebaConcurrencia {
  import opened Cuentas
  import opened Vistas
  import Auditoria

  /** One generated operation: a kind and an amount in cents. */
  datatype Operacion = Operacion(tipo: Tipo, cantidad: int)

  /** The opening balance of the test account, 1000.00, in cents. */
  const SaldoInicialPrueba: int := 100000

  /**
   * `_realizar_transaccion`: fetch the account, apply the operation, log a
   * row holding the balance it returned, and report success; any failure
   * (missing account, refused operation) is reported as `false` with
   * nothing logged.
   */
  function Intentar(l: Libro, cuentaId: int, op: Operacion): (Libro, bool) {
    if cuentaId !in l.cuentas then (l, false)
    else
      var cuenta := l.cuentas[cuentaId];
      match Aplicado(op.tipo, cuenta.saldo, op.cantidad)
      case Err(_) => (l, false)
      case Ok(saldo) =>
        var t := Transaccion(l.siguienteTransaccionId, cuentaId, op.tipo, op.cantidad, saldo);
        var l' := l.(cuentas := l.cuentas[cuentaId := cuenta.(saldo := saldo)],
                     transacciones := l.transacciones + [t],
                     siguienteTransaccionId := l.siguienteTransaccionId + 1);
        (l', true)
  }

  method RealizarTransaccionPrueba(b: Banco, cuentaId: int, op: Operacion) returns (ok: bool)
    requires b.Valid()
    modifies b
    ensures (b.Estado(), ok) == Intentar(old(b.Estado()), cuentaId, op)
    ensures b.Valid()
  {
    if cuentaId !in b.cuentas {
      return false;
    }
    var r: Resultado<int>;
    if op.tipo == Deposito {
      r := b.Depositar(cuentaId, op.cantidad);
    } else {
      r := b.Retirar(cuentaId, op.cantidad);
    }
    if r.Err? {
      return false;
    }
    var _ := b.Registrar(cuentaId, op.tipo, op.cantidad, r.valor);
    ok := true;
  }

  /**
   * The test's helper has the same effect as the endpoint's atomic block,
   * and succeeds exactly when the endpoint answers 201: the endpoint's extra
   * funds check refuses nothing that `retirar` would accept.
   */
  lemma IntentarComoRealizar(l: Libro, cuentaId: int, op: Operacion)
    ensures Intentar(l, cuentaId, op).0 == Realizar(l, cuentaId, op.tipo, op.cantidad).0
    ensures Intentar(l, cuentaId, op).1 <==> Realizar(l, cuentaId, op.tipo, op.cantidad).1.Creada?
  {
  }

  /** The helper, like the endpoint, keeps the ledger invariants. */
  lemma IntentarAuditado(l: Libro, iniciales: map<int, int>, cuentaId: int, op: Operacion)
    requires LibroValido(l) && Auditoria.SaldosNoNegativos(l) && Auditoria.Auditado(l, iniciales)
    ensures var l' := Intentar(l, cuentaId, op).0;
      LibroValido(l') && Auditoria.SaldosNoNegativos(l') && Auditoria.Auditado(l', iniciales)
  {
    IntentarComoRealizar(l, cuentaId, op);
    RealizarValido(l, cuentaId, op.tipo, op.cantidad);
    Auditoria.RealizarNoNegativo(l, cuentaId, op.tipo, op.cantidad);
    Auditoria.RealizarAuditado(l, iniciales, cuentaId, op.tipo, op.cantidad);
  }

  /** The expected balance: a left fold adding deposits and subtracting withdrawals, refusing none. */
  function SaldoEsperado(inicial: int, ops: seq<Operacion>): int {
    if ops == [] then inicial
    else
      var saldo := SaldoEsperado(inicial, ops[..|ops| - 1]);
      var op := ops[|ops| - 1];
      if op.tipo == Deposito then saldo + op.cantidad else saldo - op.cantidad
  }

  /** The test's loop computing `saldo_esperado`. */
  method CalcularSaldoEsperado(inicial: int, ops: seq<Operacion>) returns (saldo: int)
    ensures saldo == SaldoEsperado(inicial, ops)
  {
    saldo := inicial;
    for i := 0 to |ops|
      invariant saldo == SaldoEsperado(inicial, ops[..i])
    {
      var op := ops[i];
      if op.tipo == Deposito {
        saldo := saldo + op.cantidad;
      } else {
        saldo := saldo - op.cantidad;
      }
      assert ops[..i + 1][..i] == ops[..i];
    }
    assert ops[..|ops|] == ops;
  }

  /** Every operation applied in list order to one account, with each success flag. */
  function IntentarTodas(l: Libro, cuentaId: int, ops: seq<Operacion>): (Libro, seq<bool>) {
    if ops == [] then (l, [])
    else
      var (m, oks) := IntentarTodas(l, cuentaId, ops[..|ops| - 1]);
      var (m', ok) := Intentar(m, cuentaId, ops[|ops| - 1]);
      (m', oks + [ok])
  }

  /** The test's submission loop, with the workers replaced by in-order calls. */
  method EjecutarEnOrden(b: Banco, cuentaId: int, ops: seq<Operacion>) returns (oks: seq<bool>)
    requires b.Valid()
    modifies b
    ensures (b.Estado(), oks) == IntentarTodas(old(b.Estado()), cuentaId, ops)
    ensures b.Valid()
  {
    oks := [];
    var i := 0;
    while i < |ops|
      invariant 0 <= i <= |ops|
      invariant b.Valid()
      invariant (b.Estado(), oks) == IntentarTodas(old(b.Estado()), cuentaId, ops[..i])
    {
      assert ops[..i + 1][..i] == ops[..i];
      var ok := RealizarTransaccionPrueba(b, cuentaId, ops[i]);
      oks := oks + [ok];
      i := i + 1;
    }
    assert ops[..|ops|] == ops;
  }

  /** How many operations succeeded. */
  function Exitos(oks: seq<bool>): nat {
    if oks == [] then 0
    else Exitos(oks[..|oks| - 1]) + (if oks[|oks| - 1] then 1 else 0)
  }

  predicate TodasExitosas(oks: seq<bool>) {
    forall k :: 0 <= k < |oks| ==> oks[k]
  }

  lemma {:induction false} TodasExitosasCuentan(oks: seq<bool>)
    requires TodasExitosas(oks)
    ensures Exitos(oks) == |oks|
  {
    if oks != [] {
      TodasExitosasCuentan(oks[..|oks| - 1]);
    }
  }

  /**
   * Applying the operations in order: one flag per operation, one new log
   * row for the account per success, and, when none was refused, the final
   * balance is the expected-balance fold.
   */
  lemma {:induction false} IntentarTodasEfecto(l: Libro, cuentaId: int, ops: seq<Operacion>)
    requires cuentaId in l.cuentas
    ensures var (l', oks) := IntentarTodas(l, cuentaId, ops);
      && |oks| == |ops|
      && cuentaId in l'.cuentas
      && |PorCuenta(l'.transacciones, cuentaId)| == |PorCuenta(l.transacciones, cuentaId)| + Exitos(oks)
      && (TodasExitosas(oks) ==> l'.cuentas[cuentaId].saldo == SaldoEsperado(l.cuentas[cuentaId].saldo, ops))
  {
    if ops != [] {
      var previas := ops[..|ops| - 1];
      var op := ops[|ops| - 1];
      IntentarTodasEfecto(l, cuentaId, previas);
      var (m, oks) := IntentarTodas(l, cuentaId, previas);
      var (m', ok) := Intentar(m, cuentaId, op);
      var todos := oks + [ok];
      assert todos[..|todos| - 1] == oks;
      if ok {
        AplicadoExito(op.tipo, m.cuentas[cuentaId].saldo, op.cantidad);
        PorCuentaAnexar(m.transacciones, m'.transacciones[|m'.transacciones| - 1], cuentaId);
        if TodasExitosas(todos) {
          assert TodasExitosas(oks) by {
            forall k | 0 <= k < |oks| ensures oks[k] {
              assert todos[k] == oks[k];
            }
          }
        }
      } else {
        assert !TodasExitosas(todos) by {
          assert todos[|todos| - 1] == ok;
        }
      }
    }
  }

  /**
   * The running expected balance covers every withdrawal before it is made,
   * and every amount is positive.
   */
  predicate AlcanzaSiempre(inicial: int, ops: seq<Operacion>) {
    forall k :: 0 <= k < |ops| ==>
      ops[k].cantidad > 0 && (ops[k].tipo == Retiro ==> ops[k].cantidad <= SaldoEsperado(inicial, ops[..k]))
  }

  /** When the running balance always covers the next withdrawal, no operation is refused. */
  lemma {:induction false} SinRechazos(l: Libro, cuentaId: int, ops: seq<Operacion>)
    requires cuentaId in l.cuentas && AlcanzaSiempre(l.cuentas[cuentaId].saldo, ops)
    ensures TodasExitosas(IntentarTodas(l, cuentaId, ops).1)
  {
    if ops != [] {
      var inicial := l.cuentas[cuentaId].saldo;
      var n := |ops| - 1;
      var previas := ops[..n];
      assert AlcanzaSiempre(inicial, previas) by {
        forall k | 0 <= k < |previas|
          ensures previas[k].cantidad > 0 &&
            (previas[k].tipo == Retiro ==> previas[k].cantidad <= SaldoEsperado(inicial, previas[..k]))
        {
          assert previas[k] == ops[k];
          assert previas[..k] == ops[..k];
        }
      }
      SinRechazos(l, cuentaId, previas);
      IntentarTodasEfecto(l, cuentaId, previas);
      var (m, oks) := IntentarTodas(l, cuentaId, previas);
      assert ops[..n] == previas;
      AplicadoExito(ops[n].tipo, m.cuentas[cuentaId].saldo, ops[n].cantidad);
      var todos := IntentarTodas(l, cuentaId, ops).1;
      assert todos == oks + [true];
      forall k | 0 <= k < |todos| ensures todos[k] {
        if k < |oks| {
          assert todos[k] == oks[k];
        }
      }
    }
  }

  /**
   * `test_concurrencia_sin_control`, with the operations applied in order:
   * an account opened at 1000.00, the expected balance folded from the
   * operation list, every operation applied, then the final balance and the
   * account's log rows read back. When no operation was refused, the final
   * balance is the expected one and there is one row per operation; no
   * operation is refused when the running balance always covers the next
   * withdrawal.
   */
  method PruebaConcurrenciaSinControl(ops: seq<Operacion>)
    returns (saldoFinal: int, saldoEsperado: int, totalTransacciones: int, oks: seq<bool>)
    ensures |oks| == |ops|
    ensures TodasExitosas(oks) ==> saldoFinal == saldoEsperado && totalTransacciones == |ops|
    ensures AlcanzaSiempre(SaldoInicialPrueba, ops) ==> TodasExitosas(oks)
  {
    var b := new Banco();
    var r := b.Crear("123456789", "Usuario Test", SaldoInicialPrueba);
    assert !NumeroUsado(map[], "123456789");
    var cuentaId := r.valor;
    ghost var inicio := b.Estado();
    assert PorCuenta(inicio.transacciones, cuentaId) == [];
    saldoEsperado := CalcularSaldoEsperado(b.cuentas[cuentaId].saldo, ops);
    oks := EjecutarEnOrden(b, cuentaId, ops);
    IntentarTodasEfecto(inicio, cuentaId, ops);
    if AlcanzaSiempre(SaldoInicialPrueba, ops) {
      SinRechazos(inicio, cuentaId, ops);
    }
    if TodasExitosas(oks) {
      TodasExitosasCuentan(oks);
    }
    saldoFinal := b.cuentas[cuentaId].saldo;
    totalTransacciones := |PorCuenta(b.transacciones, cuentaId)|;
  }
}
