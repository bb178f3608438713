/**
 * The endpoints of cuenta/views.py: `realizar_transaccion`, one locked and
 * atomic step (look up the account, check funds for a withdrawal, apply the
 * operation, log it), and the transaction listing `get_queryset`, a filter
 * of the log by account.
 *
 * The locked, atomic block is one indivisible method call here.
 */
module Vistas {
  import opened Envoltorios
  import opened Cuentas
  import Serializadores

  /** The endpoint's answers: 201 with the new row's key and balance, 400 and 404. */
  datatype Respuesta =
    | Creada(transaccionId: int, nuevoSaldo: int)
    | SolicitudInvalida
    | NoEncontrada
    | Rechazada(fallo: Fallo)

  /**
   * The atomic block of `realizar_transaccion` on validated data: the
   * database afterwards and the answer. A withdrawal is first compared with
   * the balance read under the lock; a refused operation changes nothing.
   */
  function Realizar(l: Libro, cuentaId: int, tipo: Tipo, cantidad: int): (Libro, Respuesta) {
    if cuentaId !in l.cuentas then (l, NoEncontrada)
    else
      var cuenta := l.cuentas[cuentaId];
      if tipo == Retiro && cuenta.saldo < cantidad then (l, Rechazada(SaldoInsuficiente))
      else
        match Aplicado(tipo, cuenta.saldo, cantidad)
        case Err(f) => (l, Rechazada(f))
        case Ok(nuevo) =>
          var t := Transaccion(l.siguienteTransaccionId, cuentaId, tipo, cantidad, nuevo);
          var l' := l.(cuentas := l.cuentas[cuentaId := cuenta.(saldo := nuevo)],
                       transacciones := l.transacciones + [t],
                       siguienteTransaccionId := l.siguienteTransaccionId + 1);
          (l', Creada(t.id, nuevo))
  }

  /** The whole endpoint: the serializer first, then the atomic block. */
  function Atender(l: Libro, s: Serializadores.Solicitud): (Libro, Respuesta) {
    match Serializadores.Validar(s)
    case None => (l, SolicitudInvalida)
    case Some(p) => Realizar(l, p.cuentaId, p.tipo, p.cantidad)
  }

  /** The atomic block of `realizar_transaccion`, run against the database. */
  method Ejecutar(b: Banco, cuentaId: int, tipo: Tipo, cantidad: int) returns (r: Respuesta)
    requires b.Valid()
    modifies b
    ensures (b.Estado(), r) == Realizar(old(b.Estado()), cuentaId, tipo, cantidad)
    ensures b.Valid()
  {
    if cuentaId !in b.cuentas {
      return NoEncontrada;
    }
    var nuevoSaldo: int;
    match tipo {
      case Deposito =>
        var d := b.Depositar(cuentaId, cantidad);
        if d.Err? {
          return Rechazada(d.fallo);
        }
        nuevoSaldo := d.valor;
      case Retiro =>
        if b.cuentas[cuentaId].saldo < cantidad {
          return Rechazada(SaldoInsuficiente);
        }
        var w := b.Retirar(cuentaId, cantidad);
        if w.Err? {
          return Rechazada(w.fallo);
        }
        nuevoSaldo := w.valor;
    }
    var t := b.Registrar(cuentaId, tipo, cantidad, nuevoSaldo);
    r := Creada(t.id, nuevoSaldo);
  }

  /** `realizar_transaccion`: validate the request, then run the atomic block. */
  method RealizarTransaccion(b: Banco, s: Serializadores.Solicitud) returns (r: Respuesta)
    requires b.Valid()
    modifies b
    ensures (b.Estado(), r) == Atender(old(b.Estado()), s)
    ensures b.Valid()
  {
    var v := Serializadores.Validar(s);
    if v.None? {
      return SolicitudInvalida;
    }
    r := Ejecutar(b, v.valor.cuentaId, v.valor.tipo, v.valor.cantidad);
  }

  /** The log rows of one account, in log order. */
  function PorCuenta(log: seq<Transaccion>, cuentaId: int): seq<Transaccion> {
    if log == [] then []
    else
      var anteriores := PorCuenta(log[..|log| - 1], cuentaId);
      if log[|log| - 1].cuenta == cuentaId then anteriores + [log[|log| - 1]] else anteriores
  }

  /** `get_queryset`: the whole log, or only the rows of the requested account. */
  function Consultar(log: seq<Transaccion>, cuentaId: Option<int>): seq<Transaccion> {
    match cuentaId
    case None => log
    case Some(id) => PorCuenta(log, id)
  }

  /** Filtering distributes over concatenation, so the filter keeps log order. */
  lemma {:induction false} PorCuentaConcatena(a: seq<Transaccion>, b: seq<Transaccion>, cuentaId: int)
    ensures PorCuenta(a + b, cuentaId) == PorCuenta(a, cuentaId) + PorCuenta(b, cuentaId)
  {
    if b == [] {
      assert a + b == a;
    } else {
      var b0 := b[..|b| - 1];
      PorCuentaConcatena(a, b0, cuentaId);
      assert (a + b)[..|a + b| - 1] == a + b0;
      assert (a + b)[|a + b| - 1] == b[|b| - 1];
    }
  }

  /** The filter keeps exactly the rows of the account: nothing lost, nothing foreign. */
  lemma {:induction false} PorCuentaPertenencia(log: seq<Transaccion>, cuentaId: int, t: Transaccion)
    ensures t in PorCuenta(log, cuentaId) <==> t in log && t.cuenta == cuentaId
  {
    if log != [] {
      var anteriores := log[..|log| - 1];
      PorCuentaPertenencia(anteriores, cuentaId, t);
      assert log == anteriores + [log[|log| - 1]];
    }
  }

  /** Appending a row to the log appends it to its own account's listing only. */
  lemma PorCuentaAnexar(log: seq<Transaccion>, t: Transaccion, cuentaId: int)
    ensures PorCuenta(log + [t], cuentaId) ==
      (if t.cuenta == cuentaId then PorCuenta(log, cuentaId) + [t] else PorCuenta(log, cuentaId))
  {
    assert (log + [t])[..|log + [t]| - 1] == log;
  }

  /** If log keys increase along the log, they increase along each account's listing. */
  lemma {:induction false} PorCuentaOrdenada(log: seq<Transaccion>, cuentaId: int)
    requires forall i, j :: 0 <= i < j < |log| ==> log[i].id < log[j].id
    ensures var es := PorCuenta(log, cuentaId);
      forall i, j :: 0 <= i < j < |es| ==> es[i].id < es[j].id
  {
    if log != [] {
      var anteriores := log[..|log| - 1];
      PorCuentaOrdenada(anteriores, cuentaId);
      var t := log[|log| - 1];
      var es := PorCuenta(anteriores, cuentaId);
      forall k | 0 <= k < |es|
        ensures es[k].id < t.id
      {
        PorCuentaPertenencia(anteriores, cuentaId, es[k]);
      }
    }
  }

  /** `get_queryset`: without an account key the whole log, with one exactly that account's rows. */
  lemma ConsultarFiltra(log: seq<Transaccion>, cuentaId: Option<int>, t: Transaccion)
    ensures cuentaId.None? ==> Consultar(log, cuentaId) == log
    ensures cuentaId.Some? ==> (t in Consultar(log, cuentaId) <==> t in log && t.cuenta == cuentaId.valor)
  {
    if cuentaId.Some? {
      PorCuentaPertenencia(log, cuentaId.valor, t);
    }
  }

  /** An unknown account key is answered 404 and nothing changes. */
  lemma RealizarNoEncontrada(l: Libro, cuentaId: int, tipo: Tipo, cantidad: int)
    ensures Realizar(l, cuentaId, tipo, cantidad).1 == NoEncontrada <==> cuentaId !in l.cuentas
    ensures cuentaId !in l.cuentas ==> Realizar(l, cuentaId, tipo, cantidad).0 == l
  {
  }

  /**
   * The answers that are not 201 change nothing: the balance, the log and
   * the keys are as before. A withdrawal above the balance is refused for
   * lack of funds; a non-positive amount is refused as such.
   */
  lemma RealizarRechazo(l: Libro, cuentaId: int, tipo: Tipo, cantidad: int)
    ensures !Realizar(l, cuentaId, tipo, cantidad).1.Creada? ==> Realizar(l, cuentaId, tipo, cantidad).0 == l
    ensures cuentaId in l.cuentas && tipo == Retiro && l.cuentas[cuentaId].saldo < cantidad ==>
      Realizar(l, cuentaId, tipo, cantidad).1 == Rechazada(SaldoInsuficiente)
    ensures cuentaId in l.cuentas && cantidad <= 0 && (tipo == Retiro ==> l.cuentas[cuentaId].saldo >= cantidad) ==>
      Realizar(l, cuentaId, tipo, cantidad).1 == Rechazada(CantidadNoPositiva)
  {
  }

  /**
   * A 201 answer: the account exists and the operation is allowed; its
   * balance moves by exactly the signed amount; the log grows by exactly one
   * row, holding the kind, the amount and the new balance, whose key is the
   * returned `transaccion_id`; every other account is untouched.
   */
  lemma RealizarCreada(l: Libro, cuentaId: int, tipo: Tipo, cantidad: int)
    ensures var (l', r) := Realizar(l, cuentaId, tipo, cantidad);
      && (r.Creada? <==> cuentaId in l.cuentas && cantidad > 0 && (tipo == Retiro ==> cantidad <= l.cuentas[cuentaId].saldo))
      && (r.Creada? ==>
            && l'.cuentas.Keys == l.cuentas.Keys
            && l'.cuentas[cuentaId] == l.cuentas[cuentaId].(saldo := l.cuentas[cuentaId].saldo + Efecto(tipo, cantidad))
            && r.nuevoSaldo == l'.cuentas[cuentaId].saldo
            && l'.transacciones == l.transacciones + [Transaccion(r.transaccionId, cuentaId, tipo, cantidad, r.nuevoSaldo)]
            && r.transaccionId == l.siguienteTransaccionId
            && l'.siguienteTransaccionId == l.siguienteTransaccionId + 1
            && l'.siguienteCuentaId == l.siguienteCuentaId)
      && (forall otra :: otra in l.cuentas && otra != cuentaId ==> otra in l'.cuentas && l'.cuentas[otra] == l.cuentas[otra])
  {
    if cuentaId in l.cuentas {
      AplicadoExito(tipo, l.cuentas[cuentaId].saldo, cantidad);
    }
  }

  /**
   * A request that passed the serializer has a positive amount, so the
   * endpoint never answers that the amount must be positive: a
   * non-positive amount is answered 400 before any account is looked up,
   * whether or not the account exists.
   */
  lemma AtenderCantidadSiemprePositiva(l: Libro, s: Serializadores.Solicitud)
    ensures Atender(l, s).1 != Rechazada(CantidadNoPositiva)
    ensures Atender(l, s).1 == SolicitudInvalida <==> Serializadores.Validar(s).None?
    ensures s.cantidad.coeficiente <= 0 ==> Atender(l, s) == (l, SolicitudInvalida)
  {
    var v := Serializadores.Validar(s);
    if v.Some? {
      Serializadores.ProductoPositivo(s.cantidad.coeficiente, Serializadores.Pow10(s.cantidad.exponente + 2));
    }
  }

  /** `realizar_transaccion` keeps the database's row invariants. */
  lemma RealizarValido(l: Libro, cuentaId: int, tipo: Tipo, cantidad: int)
    requires LibroValido(l)
    ensures LibroValido(Realizar(l, cuentaId, tipo, cantidad).0)
  {
    RealizarCreada(l, cuentaId, tipo, cantidad);
    RealizarRechazo(l, cuentaId, tipo, cantidad);
  }
}
