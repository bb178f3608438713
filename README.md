# Account ledger with deposits, withdrawals and a transaction log

This project models the bank-account ledger of the `transacciones` Django application
(`5_Manejo_de_Transacciones_y_Concurrencia/transacciones`) in Dafny and proves what it promises.

- **Accounts** (`Cuenta`) hold a number, an owner and a balance (`saldo`). `depositar` and `retirar` refuse a
  non-positive amount. `retirar` also refuses an amount above the balance. Otherwise they move the stored
  balance by exactly the amount and return the new balance.
- **The log** (`Transaccion`) holds one row per committed operation: the kind (`DEP` or `RET`), the
  amount and the resulting balance (`saldo_resultante`).
- **The endpoint** `realizar_transaccion` validates the request. In one locked, atomic block it then looks up
  the account, compares a withdrawal with the balance, applies the operation, appends one log row and answers
  with the row's key and the new balance. `get_queryset` lists the log, optionally for one account.
- **The concurrency test** computes an expected balance by folding the operation list. It applies every
  operation through a helper that logs each success, then checks the final balance and the number of rows.

Amounts are integer cents. Every amount field keeps two decimal places, so cents are exact.

Layout, one module per source file:

- `cuentas.dfy` (`Cuentas`, models.py): the records and the two balance operations. It also holds the class
  `Banco`, the database, updated in place by `Crear`, `Depositar`, `Retirar` and `Registrar`. `Estado()`
  returns it as a value of type `Libro`.
- `serializadores.dfy` (`Serializadores`, serializers.py): the request check. This includes the digit counting
  of the decimal field.
- `vistas.dfy` (`Vistas`, views.py): `realizar_transaccion` as the pure step `Realizar`. The method `Ejecutar`
  runs it against a `Banco` and is proved equal to it. The module also holds the filter `get_queryset`.
- `auditoria.dfy` (`Auditoria`): the ledger invariants kept by the endpoint over any sequence of requests.
- `prueba_concurrencia.dfy` (`PruebaConcurrencia`, test_concurrencia.py): the test, with its operations
  applied one after the other.
- `envoltorios.dfy` (`Envoltorios`): an `Option` type.

Every method that changes the database is proved equal to a pure function of the old state. The properties are
lemmas about those functions.

The serializer refuses a non-positive amount with 400 before any account is looked up. Inside the atomic block
the lookup comes first, and the amount checks of `depositar`/`retirar` follow it. The endpoint never passes
them a non-positive amount.

The class invariant `Banco.Valid()` says: unique account numbers, log rows that refer to existing accounts and
hold positive amounts, and increasing keys. The constructor and `Crear` establish it. `Depositar`, `Retirar`,
`Registrar` (for a positive amount) and the endpoint methods keep it.

## Model

| member | source | states |
|---|---|---|
| `Cuentas.Banco.Depositar` | 5_Manejo_de_Transacciones_y_Concurrencia/transacciones/cuenta/models.py:16-29 | A non-positive amount is refused and nothing changes. Otherwise only that account's balance grows by the amount. Its number and owner stay the same, other accounts and the log are untouched, and the new balance is returned. |
| `Cuentas.Banco.Retirar` | 5_Manejo_de_Transacciones_y_Concurrencia/transacciones/cuenta/models.py:31-52 | A non-positive amount, or a stored balance below the amount, is refused with nothing changed. Otherwise only that account's balance shrinks by the amount, and the new balance is returned. |
| `Cuentas.Banco.Registrar` | 5_Manejo_de_Transacciones_y_Concurrencia/transacciones/cuenta/views.py:40-45 | Requires the row's account to exist (the foreign key). Appends exactly one row (key, account, kind, amount, resulting balance) under the next key. Nothing else changes. A positive amount keeps `Valid()`. |
| `Cuentas.Banco.Crear` | 5_Manejo_de_Transacciones_y_Concurrencia/transacciones/cuenta/models.py:7-10 | Opens an account under the next key unless the number is taken (`unique=True`), and keeps the row invariants. |
| `Cuentas.DepositoSegunCantidad` | 5_Manejo_de_Transacciones_y_Concurrencia/transacciones/cuenta/models.py:21-29 | A deposit succeeds exactly when the amount is positive. It is refused as non-positive otherwise. On success the balance is the old one plus the amount. |
| `Cuentas.RetiroFallaSii` | 5_Manejo_de_Transacciones_y_Concurrencia/transacciones/cuenta/models.py:35-52 | A withdrawal is refused as non-positive exactly when the amount is at most 0. It is refused for lack of funds exactly when 0 < amount and balance < amount. Withdrawing the whole balance succeeds and leaves 0. |
| `Cuentas.AplicadoExito` | 5_Manejo_de_Transacciones_y_Concurrencia/transacciones/cuenta/models.py:16-52 | An operation succeeds exactly when the amount is positive and, for a withdrawal, does not exceed the balance. It then moves the balance by the signed amount. |
| `Cuentas.AplicadoNoNegativo` | 5_Manejo_de_Transacciones_y_Concurrencia/transacciones/cuenta/models.py:35-46 | From a non-negative balance, no successful deposit or withdrawal gives a negative balance. |
| `Cuentas.DepositoYRetiroSeCancelan` | 5_Manejo_de_Transacciones_y_Concurrencia/transacciones/cuenta/models.py:25-46 | Depositing X and then withdrawing X restores a non-negative balance exactly. |
| `Cuentas.CreadoValido` | 5_Manejo_de_Transacciones_y_Concurrencia/transacciones/cuenta/models.py:7-10 | Creating an account keeps the row invariants: unique numbers, keys below the next key, log rows referring to existing accounts with increasing keys. The new key was not in use. |
| `Serializadores.CampoCantidad` | 5_Manejo_de_Transacciones_y_Concurrencia/transacciones/cuenta/serializers.py:22 | The field with its evidently intended bound: an accepted amount (at most 15 digits, 2 after the point, at least 0.01) is exactly the request's decimal in cents, c, with 1 <= c < 10^15. |
| `Serializadores.CampoCantidadComoEscrito` | 5_Manejo_de_Transacciones_y_Concurrencia/transacciones/cuenta/serializers.py:22 | The field as written, with the float `min_value=0.01`: an accepted amount is exactly the request's decimal in cents, and it is at least 2 cents and below 10^15. |
| `Serializadores.CentavosAcotados` | 5_Manejo_de_Transacciones_y_Concurrencia/transacciones/cuenta/serializers.py:22 | A decimal that passes the digit checks has at most two decimals. Its value in cents is below 10^15 in size. |
| `Serializadores.NumDigitosCota` | 5_Manejo_de_Transacciones_y_Concurrencia/transacciones/cuenta/serializers.py:22 | A number has at most k digits exactly when it is below 10^k. The digit limits are size limits. |
| `Serializadores.ComoEscritoRechazaUnCentavo` | 5_Manejo_de_Transacciones_y_Concurrencia/transacciones/cuenta/serializers.py:22 | As written, the field refuses 0.01. It accepts everything else the intended field accepts (see Findings). |
| `Serializadores.ValidarCantidadDevuelveValor` | 5_Manejo_de_Transacciones_y_Concurrencia/transacciones/cuenta/serializers.py:24-27 | `validate_cantidad` refuses exactly the values <= 0 and returns any other value unchanged. |
| `Serializadores.TipoDeCodigo` | 5_Manejo_de_Transacciones_y_Concurrencia/transacciones/cuenta/serializers.py:21 | The kind field accepts exactly `DEP` and `RET`. Code and kind convert both ways. |
| `Serializadores.Validar` | 5_Manejo_de_Transacciones_y_Concurrencia/transacciones/cuenta/serializers.py:19-27 | With the corrected 0.01 bound (see Findings): a request that passes keeps its account key and kind. Its amount is exactly the request's decimal in cents, with 1 <= cents < 10^15. |
| `Serializadores.ValidarCompleto` | 5_Manejo_de_Transacciones_y_Concurrencia/transacciones/cuenta/serializers.py:19-27 | With the corrected 0.01 bound: every amount from 0.01 up to just below 10^13 units, written with two decimals, passes unchanged with either kind and any key. As written, 0.01 itself is refused (see Findings). |
| `Vistas.Ejecutar` | 5_Manejo_de_Transacciones_y_Concurrencia/transacciones/cuenta/views.py:24-62 | The atomic block run on the database leaves exactly the state and answer of `Realizar`: lookup, funds check, operation, one log row. It keeps `Valid()`. |
| `Vistas.RealizarTransaccion` | 5_Manejo_de_Transacciones_y_Concurrencia/transacciones/cuenta/views.py:14-22 | The endpoint validates first (with the corrected 0.01 bound). An invalid request gets 400 with nothing changed; otherwise the atomic block runs. It keeps `Valid()`. |
| `Vistas.RealizarNoEncontrada` | 5_Manejo_de_Transacciones_y_Concurrencia/transacciones/cuenta/views.py:27-57 | The answer is 404 exactly when the account does not exist, and then nothing changes. |
| `Vistas.RealizarRechazo` | 5_Manejo_de_Transacciones_y_Concurrencia/transacciones/cuenta/views.py:29-62 | Every answer other than 201 leaves balances, log and keys unchanged. A withdrawal above the balance gets "Saldo insuficiente". A non-positive amount is refused as such. |
| `Vistas.RealizarCreada` | 5_Manejo_de_Transacciones_y_Concurrencia/transacciones/cuenta/views.py:27-51 | 201 exactly when the account exists and the operation is allowed. The balance then moves by the signed amount and the log grows by exactly one row. That row holds the kind, the amount and `saldo_resultante` = `nuevo_saldo`, and its key is `transaccion_id`. Every other account is untouched. |
| `Vistas.AtenderCantidadSiemprePositiva` | 5_Manejo_de_Transacciones_y_Concurrencia/transacciones/cuenta/views.py:15-30 | After validation the endpoint never answers that the amount must be positive. It answers 400-invalid exactly when validation fails. A non-positive amount gets 400 with nothing changed, whether or not the account exists. |
| `Vistas.PorCuentaPertenencia` | 5_Manejo_de_Transacciones_y_Concurrencia/transacciones/cuenta/views.py:73-74 | Filtering by account keeps exactly the log rows of that account. |
| `Vistas.PorCuentaConcatena` | 5_Manejo_de_Transacciones_y_Concurrencia/transacciones/cuenta/views.py:69-76 | The filter distributes over concatenation of logs, so it keeps log order. |
| `Vistas.PorCuentaAnexar` | 5_Manejo_de_Transacciones_y_Concurrencia/transacciones/cuenta/views.py:40-45 | Appending a row adds it to its own account's listing and to no other. |
| `Vistas.PorCuentaOrdenada` | 5_Manejo_de_Transacciones_y_Concurrencia/transacciones/cuenta/views.py:69-76 | If keys increase along the log, they increase along each account's listing. |
| `Vistas.ConsultarFiltra` | 5_Manejo_de_Transacciones_y_Concurrencia/transacciones/cuenta/views.py:69-76 | Without `cuenta_id` the listing is the whole log. With it, the listing is exactly that account's rows. |
| `Auditoria.UltimoResultante` | 5_Manejo_de_Transacciones_y_Concurrencia/transacciones/cuenta/views.py:40-45 | In a chained listing, the last `saldo_resultante` is the initial balance plus the deposits minus the withdrawals. |
| `Auditoria.SaldoEsUltimoResultante` | 5_Manejo_de_Transacciones_y_Concurrencia/transacciones/cuenta/views.py:29-45 | In an audited ledger, an account's last logged `saldo_resultante` is its current balance. |
| `Auditoria.CuadraAnexar` | 5_Manejo_de_Transacciones_y_Concurrencia/transacciones/cuenta/views.py:29-45 | Appending a row whose resulting balance is the balance moved by that row keeps the balance identity and the chain. |
| `Auditoria.RealizarAuditado` | 5_Manejo_de_Transacciones_y_Concurrencia/transacciones/cuenta/views.py:24-51 | One request keeps every account's balance equal to initial + Σ deposits − Σ withdrawals over its logged rows, with every `saldo_resultante` chained from the previous one. |
| `Vistas.RealizarValido` | 5_Manejo_de_Transacciones_y_Concurrencia/transacciones/cuenta/views.py:27-45 | One request keeps the row invariants: logged amounts positive, keys increasing, rows referring to existing accounts. |
| `Auditoria.RealizarNoNegativo` | 5_Manejo_de_Transacciones_y_Concurrencia/transacciones/cuenta/views.py:29-37 | One request never makes a balance negative. |
| `Auditoria.CreadoAuditado` | 5_Manejo_de_Transacciones_y_Concurrencia/transacciones/cuenta/models.py:7-10 | A new account has no rows and satisfies the identity from its opening balance. |
| `Auditoria.RealizarTodasAuditado` | 5_Manejo_de_Transacciones_y_Concurrencia/transacciones/cuenta/views.py:24-51 | Over any sequence of requests, the row invariants, non-negative balances and the audited balance identity with its chain all hold. |
| `PruebaConcurrencia.RealizarTransaccionPrueba` | 5_Manejo_de_Transacciones_y_Concurrencia/transacciones/transacciones/tests/test_concurrencia.py:18-39 | The helper leaves exactly the state and flag of `Intentar`. A failure returns false with nothing logged. A success returns true and logs one row holding the returned balance. |
| `PruebaConcurrencia.IntentarComoRealizar` | 5_Manejo_de_Transacciones_y_Concurrencia/transacciones/transacciones/tests/test_concurrencia.py:24-36 | The helper has the endpoint's effect and succeeds exactly when the endpoint answers 201. |
| `PruebaConcurrencia.IntentarAuditado` | 5_Manejo_de_Transacciones_y_Concurrencia/transacciones/transacciones/tests/test_concurrencia.py:25-35 | The helper keeps the row invariants, non-negative balances and the audited identity. |
| `PruebaConcurrencia.CalcularSaldoEsperado` | 5_Manejo_de_Transacciones_y_Concurrencia/transacciones/transacciones/tests/test_concurrencia.py:58-64 | The loop's result is the left fold: + amount for `DEP`, − amount for `RET`. |
| `PruebaConcurrencia.EjecutarEnOrden` | 5_Manejo_de_Transacciones_y_Concurrencia/transacciones/transacciones/tests/test_concurrencia.py:67-74 | Submitting every operation, in list order, gives the state and flags of `IntentarTodas`. |
| `PruebaConcurrencia.IntentarTodasEfecto` | 5_Manejo_de_Transacciones_y_Concurrencia/transacciones/transacciones/tests/test_concurrencia.py:76-87 | There is one flag per operation and one new row per success. When nothing was refused, the final balance is the expected-balance fold. |
| `PruebaConcurrencia.TodasExitosasCuentan` | 5_Manejo_de_Transacciones_y_Concurrencia/transacciones/transacciones/tests/test_concurrencia.py:86-87 | When every operation succeeded, the success count is the number of operations. |
| `PruebaConcurrencia.SinRechazos` | 5_Manejo_de_Transacciones_y_Concurrencia/transacciones/transacciones/tests/test_concurrencia.py:59-64 | If amounts are positive and the running expected balance covers each withdrawal, no operation is refused. |
| `PruebaConcurrencia.PruebaConcurrenciaSinControl` | 5_Manejo_de_Transacciones_y_Concurrencia/transacciones/transacciones/tests/test_concurrencia.py:44-87 | The test, run in order: when no operation is refused, the final balance equals the expected one and the account has one row per operation (100 for 100 operations). No operation is refused when the running balance covers each withdrawal. |

## Left out

- Real concurrency is left out: the thread pool, `connections.close_all()`, and the row locks of `select_for_update()` and `transaction.atomic()`. Each atomic block is one indivisible method call. That concurrent runs equal some sequential order is assumed, not proved.
- Rollback is not modelled. No path in the code changes anything before it raises, so a rollback would have nothing to undo. Database errors from `save()` or `create()` are not modelled.
- ORM mechanics are reduced to values. `save()`/`refresh_from_db()` are simply the new stored row. The `F()` update is "new balance = stored balance ± amount".
- The timestamps `ultima_actualizacion` and `fecha` are left out (clock-dependent).
- The `__str__` methods, the `CuentaSerializer`/`TransaccionSerializer` field lists, HTTP status codes and response bodies are left out. Answers are the constructors of `Vistas.Respuesta`.
- Serializadores.Validar: uses the amount field with its evidently intended exact bound 0.01 (`CampoCantidad`), not the float bound as written (`CampoCantidadComoEscrito`). So `Vistas.Atender` and `Vistas.RealizarTransaccion` answer 201 for an amount of 0.01 where the code as written answers 400 (see Findings). On every other amount the two fields agree (`ComoEscritoRechazaUnCentavo`).
- Python `Decimal` arithmetic is replaced by integer cents. Stored balances are unbounded: the column limit of 15 digits on a balance is not modelled.
- Parsing is left out: `cuenta_id` arrives as an integer, and `cantidad` arrives as a coefficient and an exponent. The framework's refusal of NaN, infinities and over-long strings is not modelled. The digit counting follows the framework's DecimalField on that coefficient and exponent; version differences in how trailing zeros are counted are not modelled.
- A kind other than `DEP`/`RET` cannot reach the view after validation, so the view's fall-through for such a kind is not modelled.
- `get_queryset` takes the `cuenta_id` query parameter as an optional, already-parsed key: absent or empty is `None`. `Transaccion` declares no ordering, so the database's order is unspecified. The model lists rows in log (insertion) order.
- The `max_length` limits on `numero_cuenta` and `propietario` are not modelled.
- The test's random operations, and their rounding to 0.01, are left out. Every lemma quantifies over arbitrary operation lists of amounts in cents.
- PruebaConcurrencia.PruebaConcurrenciaSinControl: the test asserts equality of balances and 100 rows unconditionally. In the sequential model this holds only when no withdrawal is refused, so the contract states it under that condition. `SinRechazos` gives a sufficient condition.
- Cuentas.DepositoYRetiroSeCancelan: requires a non-negative starting balance. From a negative balance the withdrawal would be refused.
- Auditoria.RealizarNoNegativo: assumes balances start non-negative. The `saldo` field does not forbid a negative opening balance.
- `performance_report.py` (database timing and plotting) and the JWT user, role and permission wiring are not part of this model.

## Findings

| source | as written | input that shows it | evidently intended | confidence | as-written member | corrected member |
|---|---|---|---|---|---|---|
| 5_Manejo_de_Transacciones_y_Concurrencia/transacciones/cuenta/serializers.py:22 | `min_value=0.01` is a binary floating-point number, exactly 5764607523034235 / 2^59 = 0.010000000000000000208…. The decimal amount is compared with it by exact value, so `Decimal("0.01") < 0.01` holds and the bound refuses it. | `cantidad` = `"0.01"` | the smallest accepted amount is 0.01 (one cent) | medium: rests on the framework handing `min_value` to the minimum-value validator unconverted; not executed | `Serializadores.CampoCantidadComoEscrito`, shown by `Serializadores.ComoEscritoRechazaUnCentavo` | `Serializadores.CampoCantidad` (used by `Serializadores.Validar`; bound proved in its contract and by `Serializadores.ValidarCompleto`) |
