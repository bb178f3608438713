/**
 * The account model of cuenta/models.py: the `Cuenta` and `Transaccion`
 * rows, the two balance operations `depositar` and `retirar`, and the
 * database that holds the rows and is updated in place.
 *
 * Money is counted in integer cents: every amount field keeps exactly two
 * decimal places, so sums and differences of such amounts are exact.
 */
module Cuentas {

  /** The two kinds of transaction. */
  datatype Tipo = Deposito | Retiro

  /** The code each kind is stored under ('DEP' and 'RET'). */
  function Codigo(t: Tipo): string {
    match t
    case Deposito => "DEP"
    case Retiro => "RET"
  }

  /** An account row; `saldo` is in cents. */
  datatype Cuenta = Cuenta(numeroCuenta: string, propietario: string, saldo: int)

  /** A row of the transaction log; `cantidad` and `saldoResultante` are in cents. */
  datatype Transaccion = Transaccion(id: int, cuenta: int, tipo: Tipo, cantidad: int, saldoResultante: int)

  /**
   * Why an operation is refused: the two `ValueError` messages of the
   * balance operations ("La cantidad debe ser positiva", "Saldo
   * insuficiente") and the unique constraint on `numero_cuenta`.
   */
  datatype Fallo = CantidadNoPositiva | SaldoInsuficiente | NumeroDuplicado

  datatype Resultado<T> = Ok(valor: T) | Err(fallo: Fallo)

  /** The balance after `depositar(cantidad)`, or why it is refused. */
  function Depositado(saldo: int, cantidad: int): Resultado<int> {
    if cantidad <= 0 then Err(CantidadNoPositiva) else Ok(saldo + cantidad)
  }

  /** The balance after `retirar(cantidad)`, or why it is refused. */
  function Retirado(saldo: int, cantidad: int): Resultado<int> {
    if cantidad <= 0 then Err(CantidadNoPositiva)
    else if saldo < cantidad then Err(SaldoInsuficiente)
    else Ok(saldo - cantidad)
  }

  /** The balance operation of the given kind. */
  function Aplicado(tipo: Tipo, saldo: int, cantidad: int): Resultado<int> {
    match tipo
    case Deposito => Depositado(saldo, cantidad)
    case Retiro => Retirado(saldo, cantidad)
  }

  /** The signed change a committed operation of this kind makes to a balance. */
  function Efecto(tipo: Tipo, cantidad: int): int {
    if tipo == Deposito then cantidad else -cantidad
  }

  /** A deposit succeeds exactly for a positive amount, and then adds it. */
  lemma DepositoSegunCantidad(saldo: int, cantidad: int)
    ensures Depositado(saldo, cantidad).Ok? <==> cantidad > 0
    ensures Depositado(saldo, cantidad).Err? ==> Depositado(saldo, cantidad).fallo == CantidadNoPositiva
    ensures Depositado(saldo, cantidad).Ok? ==> Depositado(saldo, cantidad).valor == saldo + cantidad > saldo
  {
  }

  /**
   * A withdrawal of a positive amount is refused for lack of funds exactly
   * when the balance is below the amount: the comparison is strict, so the
   * whole balance can be withdrawn and leaves zero.
   */
  lemma RetiroFallaSii(saldo: int, cantidad: int)
    ensures Retirado(saldo, cantidad) == Err(CantidadNoPositiva) <==> cantidad <= 0
    ensures Retirado(saldo, cantidad) == Err(SaldoInsuficiente) <==> 0 < cantidad && saldo < cantidad
    ensures Retirado(saldo, cantidad).Ok? ==> Retirado(saldo, cantidad).valor == saldo - cantidad
    ensures saldo > 0 ==> Retirado(saldo, saldo) == Ok(0)
  {
  }

  /** Which operations succeed, and by how much they move the balance. */
  lemma AplicadoExito(tipo: Tipo, saldo: int, cantidad: int)
    ensures Aplicado(tipo, saldo, cantidad).Ok? <==> cantidad > 0 && (tipo == Retiro ==> cantidad <= saldo)
    ensures Aplicado(tipo, saldo, cantidad).Ok? ==> Aplicado(tipo, saldo, cantidad).valor == saldo + Efecto(tipo, cantidad)
  {
  }

  /** From a non-negative balance, neither operation can make it negative. */
  lemma AplicadoNoNegativo(tipo: Tipo, saldo: int, cantidad: int)
    requires saldo >= 0
    ensures Aplicado(tipo, saldo, cantidad).Ok? ==> Aplicado(tipo, saldo, cantidad).valor >= 0
  {
  }

  /**
   * Depositing an amount and then withdrawing it restores a non-negative
   * balance (from a negative one the withdrawal would be refused).
   */
  lemma DepositoYRetiroSeCancelan(saldo: int, cantidad: int)
    requires saldo >= 0 && cantidad > 0
    ensures Depositado(saldo, cantidad).Ok?
    ensures Retirado(Depositado(saldo, cantidad).valor, cantidad) == Ok(saldo)
  {
  }

  /** The whole database: account rows by primary key, the log, and the next keys. */
  datatype Libro = Libro(
    cuentas: map<int, Cuenta>,
    transacciones: seq<Transaccion>,
    siguienteCuentaId: int,
    siguienteTransaccionId: int)

  /**
   * What the database keeps true of its rows: keys are below the next key
   * to hand out, account numbers are unique, every log row refers to an
   * existing account and holds a positive amount, and log keys increase in
   * log order.
   */
  predicate LibroValido(l: Libro) {
    && 1 <= l.siguienteCuentaId && 1 <= l.siguienteTransaccionId
    && (forall id :: id in l.cuentas ==> 1 <= id < l.siguienteCuentaId)
    && (forall a, b :: a in l.cuentas && b in l.cuentas && a != b ==>
          l.cuentas[a].numeroCuenta != l.cuentas[b].numeroCuenta)
    && (forall i :: 0 <= i < |l.transacciones| ==>
          && l.transacciones[i].cuenta in l.cuentas
          && 1 <= l.transacciones[i].id < l.siguienteTransaccionId
          && l.transacciones[i].cantidad > 0)
    && (forall i, j :: 0 <= i < j < |l.transacciones| ==>
          l.transacciones[i].id < l.transacciones[j].id)
  }

  function LibroVacio(): Libro {
    Libro(map[], [], 1, 1)
  }

  /** Whether some account already has this number. */
  predicate NumeroUsado(cuentas: map<int, Cuenta>, numero: string) {
    exists id :: id in cuentas && cuentas[id].numeroCuenta == numero
  }

  /** `Cuenta.objects.create`: a new row under the next key, unless the number is taken. */
  function Creado(l: Libro, numero: string, propietario: string, saldo: int): (Libro, Resultado<int>) {
    if NumeroUsado(l.cuentas, numero) then (l, Err(NumeroDuplicado))
    else
      var id := l.siguienteCuentaId;
      (l.(cuentas := l.cuentas[id := Cuenta(numero, propietario, saldo)], siguienteCuentaId := id + 1), Ok(id))
  }

  /** Creating an account keeps the database's row invariants. */
  lemma CreadoValido(l: Libro, numero: string, propietario: string, saldo: int)
    requires LibroValido(l)
    ensures LibroValido(Creado(l, numero, propietario, saldo).0)
    ensures Creado(l, numero, propietario, saldo).1.Ok? ==> Creado(l, numero, propietario, saldo).1.valor !in l.cuentas
  {
  }

  /** The database, updated in place by the model's methods and by the view. */
  class Banco {
    var cuentas: map<int, Cuenta>
    var transacciones: seq<Transaccion>
    var siguienteCuentaId: int
    var siguienteTransaccionId: int

    function Estado(): Libro
      reads this
    {
      Libro(cuentas, transacciones, siguienteCuentaId, siguienteTransaccionId)
    }

    ghost predicate Valid()
      reads this
    {
      LibroValido(Estado())
    }

    /** An empty database; auto-increment keys start at 1. */
    constructor ()
      ensures Estado() == LibroVacio() && Valid()
    {
      cuentas := map[];
      transacciones := [];
      siguienteCuentaId := 1;
      siguienteTransaccionId := 1;
    }

    /** `Cuenta.objects.create(numero_cuenta=..., propietario=..., saldo=...)`. */
    method Crear(numero: string, propietario: string, saldo: int) returns (r: Resultado<int>)
      requires Valid()
      modifies this
      ensures (Estado(), r) == Creado(old(Estado()), numero, propietario, saldo)
      ensures Valid()
    {
      CreadoValido(Estado(), numero, propietario, saldo);
      if exists id :: id in cuentas && cuentas[id].numeroCuenta == numero {
        return Err(NumeroDuplicado);
      }
      var id := siguienteCuentaId;
      cuentas := cuentas[id := Cuenta(numero, propietario, saldo)];
      siguienteCuentaId := id + 1;
      r := Ok(id);
    }

    /**
     * `Cuenta.depositar`: a non-positive amount is refused with nothing
     * changed; otherwise the stored balance grows by the amount (only the
     * balance of that row moves) and the new balance is returned.
     */
    method Depositar(id: int, cantidad: int) returns (r: Resultado<int>)
      requires id in cuentas
      modifies this
      ensures r == Depositado(old(cuentas[id].saldo), cantidad)
      ensures r.Ok? ==> cuentas == old(cuentas)[id := old(cuentas[id]).(saldo := r.valor)]
      ensures r.Err? ==> cuentas == old(cuentas)
      ensures transacciones == old(transacciones)
      ensures siguienteCuentaId == old(siguienteCuentaId) && siguienteTransaccionId == old(siguienteTransaccionId)
      ensures old(Valid()) ==> Valid()
    {
      if cantidad <= 0 {
        return Err(CantidadNoPositiva);
      }
      var cuenta := cuentas[id];
      cuentas := cuentas[id := cuenta.(saldo := cuenta.saldo + cantidad)];
      r := Ok(cuentas[id].saldo);
    }

    /**
     * `Cuenta.retirar`: a non-positive amount, or a stored balance below the
     * amount (read again under the row lock), is refused with nothing
     * changed; otherwise the stored balance shrinks by the amount and the
     * new balance is returned.
     */
    method Retirar(id: int, cantidad: int) returns (r: Resultado<int>)
      requires id in cuentas
      modifies this
      ensures r == Retirado(old(cuentas[id].saldo), cantidad)
      ensures r.Ok? ==> cuentas == old(cuentas)[id := old(cuentas[id]).(saldo := r.valor)]
      ensures r.Err? ==> cuentas == old(cuentas)
      ensures transacciones == old(transacciones)
      ensures siguienteCuentaId == old(siguienteCuentaId) && siguienteTransaccionId == old(siguienteTransaccionId)
      ensures old(Valid()) ==> Valid()
    {
      if cantidad <= 0 {
        return Err(CantidadNoPositiva);
      }
      var cuenta := cuentas[id];
      if cuenta.saldo < cantidad {
        return Err(SaldoInsuficiente);
      }
      cuentas := cuentas[id := cuenta.(saldo := cuenta.saldo - cantidad)];
      r := Ok(cuentas[id].saldo);
    }

    /**
     * `Transaccion.objects.create`: appends one log row under the next key.
     * The row's account must exist (the foreign key); a row with a positive
     * amount keeps the row invariants.
     */
    method Registrar(cuenta: int, tipo: Tipo, cantidad: int, saldoResultante: int) returns (t: Transaccion)
      requires cuenta in cuentas
      modifies this
      ensures t == Transaccion(old(siguienteTransaccionId), cuenta, tipo, cantidad, saldoResultante)
      ensures transacciones == old(transacciones) + [t]
      ensures siguienteTransaccionId == old(siguienteTransaccionId) + 1
      ensures cuentas == old(cuentas) && siguienteCuentaId == old(siguienteCuentaId)
      ensures old(Valid()) && cantidad > 0 ==> Valid()
    {
      t := Transaccion(siguienteTransaccionId, cuenta, tipo, cantidad, saldoResultante);
      transacciones := transacciones + [t];
      siguienteTransaccionId := siguienteTransaccionId + 1;
    }
  }
}
