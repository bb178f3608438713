/**
 * The request check of cuenta/serializers.py (`RealizarTransaccionSerializer`):
 * an integer account key, a kind given by its code, and an amount given as
 * a decimal with at most 15 digits, at most 2 of them after the point, at
 * least 0.01, and positive (`validate_cantidad`).
 */
module Serializadores {
  import opened Envoltorios
  import opened Cuentas

  /** A finite decimal as parsed from the request: `coeficiente * 10^exponente`. */
  datatype Decimal = Decimal(coeficiente: int, exponente: int)

  /** The request body before validation. */
  datatype Solicitud = Solicitud(cuentaId: int, tipo: string, cantidad: Decimal)

  /** The validated data: the account key, the kind, and the amount in cents. */
  datatype Pedido = Pedido(cuentaId: int, tipo: Tipo, cantidad: int)

  const MaxDigitos: nat := 15
  const MaxDecimales: nat := 2
  const MaxDigitosEnteros: nat := MaxDigitos - MaxDecimales

  function Pow10(n: nat): (r: nat)
    ensures r >= 1
  {
    if n == 0 then 1 else 10 * Pow10(n - 1)
  }

  function Abs(x: int): nat {
    if x < 0 then -x else x
  }

  /** The number of decimal digits of `n`, counting a single digit for 0. */
  function NumDigitos(n: nat): (r: nat)
    ensures r >= 1
  {
    if n < 10 then 1 else 1 + NumDigitos(n / 10)
  }

  lemma {:induction false} Pow10Suma(a: nat, b: nat)
    ensures Pow10(a + b) == Pow10(a) * Pow10(b)
  {
    if a > 0 {
      Pow10Suma(a - 1, b);
      assert Pow10(a + b) == 10 * Pow10(a - 1 + b);
    }
  }

  lemma {:induction false} Pow10Monotona(a: nat, b: nat)
    requires a <= b
    ensures Pow10(a) <= Pow10(b)
  {
    if a < b {
      Pow10Monotona(a, b - 1);
    }
  }

  /** `n` has at most `k` digits exactly when it is below `10^k`. */
  lemma {:induction false} NumDigitosCota(n: nat, k: nat)
    requires k >= 1
    ensures NumDigitos(n) <= k <==> n < Pow10(k)
  {
    if n < 10 {
      Pow10Monotona(1, k);
    } else if k == 1 {
      assert NumDigitos(n) == 1 + NumDigitos(n / 10);
    } else {
      NumDigitosCota(n / 10, k - 1);
      assert Pow10(k) == 10 * Pow10(k - 1);
    }
  }

  /**
   * The digit counts the decimal field checks: total digits, digits before
   * the point and digits after the point, read off the coefficient's digits
   * and the exponent as the framework's DecimalField does.
   */
  function Precision(d: Decimal): (int, int, int) {
    var n := NumDigitos(Abs(d.coeficiente));
    if d.exponente >= 0 then (n + d.exponente, n + d.exponente, 0)
    else if n > -d.exponente then (n, n + d.exponente, -d.exponente)
    else (-d.exponente, 0, -d.exponente)
  }

  /** `max_digits=15, decimal_places=2`. */
  predicate PrecisionValida(d: Decimal) {
    var (total, enteros, decimales) := Precision(d);
    total <= MaxDigitos && decimales <= MaxDecimales && enteros <= MaxDigitosEnteros
  }

  /** The value in cents; exact, since at most two digits follow the point. */
  function Centavos(d: Decimal): int
    requires d.exponente >= -2
  {
    d.coeficiente * Pow10(d.exponente + 2)
  }

  lemma {:induction false} MultiplicarMenor(a: nat, p: nat, q: nat)
    requires a < p && q >= 1
    ensures a * q < p * q
  {
    if q > 1 {
      MultiplicarMenor(a, p, q - 1);
      assert a * q == a * (q - 1) + a;
      assert p * q == p * (q - 1) + p;
    }
  }

  /** The digit checks bound the coefficient's digits and the exponent together. */
  lemma PrecisionAcota(d: Decimal)
    requires PrecisionValida(d)
    ensures -2 <= d.exponente
    ensures NumDigitos(Abs(d.coeficiente)) + d.exponente <= MaxDigitosEnteros
  {
  }

  /** A decimal that passes the digit checks is a whole number of cents below 10^15 in size. */
  lemma CentavosAcotados(d: Decimal)
    requires PrecisionValida(d)
    ensures d.exponente >= -2
    ensures Abs(Centavos(d)) < Pow10(MaxDigitos)
  {
    PrecisionAcota(d);
    var a := Abs(d.coeficiente);
    var n := NumDigitos(a);
    var m: nat := d.exponente + 2;
    NumDigitosCota(a, n);
    var q := Pow10(m);
    AbsProducto(d.coeficiente, q);
    MultiplicarMenor(a, Pow10(n), q);
    Pow10Suma(n, m);
    Pow10Monotona(n + m, MaxDigitos);
  }

  /** Multiplying by a positive scale keeps a product's sign: a positive product has a positive factor. */
  lemma ProductoPositivo(x: int, q: nat)
    requires q >= 1
    ensures x * q >= 1 ==> x >= 1
  {
    if x <= 0 {
      assert x * q == -((-x) * q);
    }
  }

  lemma AbsProducto(x: int, q: nat)
    ensures Abs(x * q) == Abs(x) * q
  {
    if x < 0 {
      assert x * q == -((-x) * q);
    }
  }

  /**
   * The `cantidad` field, with its lower bound 0.01 as an exact decimal:
   * the amount in cents when the digit checks and the bound pass.
   */
  function CampoCantidad(d: Decimal): (r: Option<int>)
    ensures r.Some? ==> d.exponente >= -2 && r.valor == Centavos(d)
    ensures r.Some? ==> 1 <= r.valor < Pow10(MaxDigitos)
  {
    if !PrecisionValida(d) then None
    else
      CentavosAcotados(d);
      var c := Centavos(d);
      if c < 1 then None else Some(c)
  }

  /**
   * The exact value of the binary floating-point number written `0.01`:
   * 5764607523034235 / 2^59, a little above one hundredth.
   */
  const MinimoFlotanteNumerador: int := 5764607523034235
  const MinimoFlotanteDenominador: int := 576460752303423488

  /**
   * The `cantidad` field as written: `min_value=0.01` is a floating-point
   * number, and a decimal compares with it by exact value, so the field
   * requires `c / 100 >= 5764607523034235 / 2^59`: the smallest amount it
   * accepts is two cents.
   */
  function CampoCantidadComoEscrito(d: Decimal): (r: Option<int>)
    ensures r.Some? ==> d.exponente >= -2 && r.valor == Centavos(d)
    ensures r.Some? ==> 2 <= r.valor < Pow10(MaxDigitos)
  {
    if !PrecisionValida(d) then None
    else
      CentavosAcotados(d);
      var c := Centavos(d);
      if c * MinimoFlotanteDenominador < 100 * MinimoFlotanteNumerador then None else Some(c)
  }

  /** As written, the field refuses exactly one amount more than intended: 0.01 itself. */
  lemma ComoEscritoRechazaUnCentavo(d: Decimal)
    ensures CampoCantidad(Decimal(1, -2)) == Some(1)
    ensures CampoCantidadComoEscrito(Decimal(1, -2)) == None
    ensures CampoCantidadComoEscrito(d) ==
      (if CampoCantidad(d).Some? && CampoCantidad(d).valor != 1 then CampoCantidad(d) else None)
  {
    assert NumDigitos(1) == 1;
  }

  /** `validate_cantidad`: refuses a value that is not positive, returns any other unchanged. */
  function ValidarCantidad(cantidad: int): Option<int> {
    if cantidad <= 0 then None else Some(cantidad)
  }

  lemma ValidarCantidadDevuelveValor(cantidad: int)
    ensures ValidarCantidad(cantidad).Some? <==> cantidad > 0
    ensures ValidarCantidad(cantidad).Some? ==> ValidarCantidad(cantidad).valor == cantidad
  {
  }

  /** The `tipo` choice field: only the two kind codes are accepted. */
  function TipoDe(codigo: string): Option<Tipo> {
    if codigo == "DEP" then Some(Deposito)
    else if codigo == "RET" then Some(Retiro)
    else None
  }

  /** The choice field accepts exactly the codes of the two kinds. */
  lemma TipoDeCodigo(t: Tipo, codigo: string)
    ensures TipoDe(Codigo(t)) == Some(t)
    ensures TipoDe(codigo).Some? ==> Codigo(TipoDe(codigo).valor) == codigo
  {
  }

  /** The whole serializer: every field must pass, then `validate_cantidad`. */
  function Validar(s: Solicitud): (r: Option<Pedido>)
    ensures r.Some? ==> r.valor.cuentaId == s.cuentaId && Codigo(r.valor.tipo) == s.tipo
    ensures r.Some? ==> 1 <= r.valor.cantidad < Pow10(MaxDigitos)
    ensures r.Some? ==> s.cantidad.exponente >= -2 && r.valor.cantidad == Centavos(s.cantidad)
  {
    var tipo := TipoDe(s.tipo);
    var campo := CampoCantidad(s.cantidad);
    if tipo.None? || campo.None? then None
    else
      var cantidad := ValidarCantidad(campo.valor);
      if cantidad.None? then None
      else Some(Pedido(s.cuentaId, tipo.valor, cantidad.valor))
  }

  /**
   * Every amount of one cent up to just below 10^13 units, written with two
   * decimals, passes, with either kind and any account key.
   */
  lemma ValidarCompleto(cuentaId: int, tipo: Tipo, centavos: int)
    requires 1 <= centavos < Pow10(MaxDigitos)
    ensures Validar(Solicitud(cuentaId, Codigo(tipo), Decimal(centavos, -2))) == Some(Pedido(cuentaId, tipo, centavos))
  {
    NumDigitosCota(centavos, MaxDigitos);
    assert Centavos(Decimal(centavos, -2)) == centavos;
  }
}
