# Wompi checkout backend and store, modelled in Dafny

This project models the checkout of a small shop that takes card payments through the Wompi
gateway in Colombian pesos. It covers:

- the NestJS backend's domain use cases, which work over a product table and a transaction table;
- the Wompi gateway adapter;
- the service layer that turns use-case results into HTTP exceptions;
- the older ("legacy") services under `backend/src/modules/`;
- the two Vuex store modules of the Vue frontend.

## How the model is built

**Stores.** The two repositories are classes over `map<string, Product>` and
`map<string, Transaction>` (`Stores`). Every store write and every gateway request is appended
to one shared ghost `Journal`. This lets contracts state the exact order of effects, and state
that nothing was written at all. Transaction ids are generated by the store as
`"tx-" + decimal(n)` from a counter. `TransactionStore.Valid` and the decimal round trip in
`NumberText` together prove that each new id is fresh.

**Gateway.** The Wompi HTTP API is an oracle object (`Wompi.WompiApi`) whose two endpoints give
fixed replies. SHA-256 is an uninterpreted `string -> string` value. The failure of the
database write that stores the charge id is a parameter of the pay methods.

**Results and exceptions.** `Rop.Result` is the Result value of `result.ts`. `Domain.Outcome`
(`Returned`/`Threw`) models code that throws or rejects.

**Numbers.** Money and quantities are integers. `toString()` and template interpolation of an
integer are `NumberText.IntToDecimal`, so `Number(price) * quantity` stored as text reads back
exactly (`NumberText.ParseOfIntToDecimal`).

**Behaviour the code has and the model keeps:**

- **Double decrement.** Stock is reserved when paying, and taken again when the reconciler later
  moves the same transaction into APPROVED: `CheckoutFlows.PayThenApprove` proves a net loss of
  twice the quantity.
- **Return shapes.** Several use cases return bare values, return `void`, or throw, while the
  services test `result.ok`:
  - a bare value has no `ok`, so the service throws `result.error`, which is `undefined`;
  - a `void` use case makes `result.ok` a TypeError, after its write has already happened;
  - an error thrown by the use case passes the translation by untouched.

  The service functions model this as written. For example, `TransactionsService.CreatePending`
  never returns the row it created.
- **Reconciler not wired.** `TransactionsService` has no `updateStatus`, so the reconciler is
  modelled as a use case only.
- **Compensation.** The new orchestrator writes back the product as it was read. The legacy one
  adds the quantity back to whatever is stored. Run sequentially, as here, both restore the table
  (`LegacyProducts.DecreaseThenIncrease`, `LegacyPayments.PaymentsService.Pay`).
- **Code over documentation.** Where the repository's design description and its code disagree,
  the model follows the code:
  - a quantity is not checked to be at least 1;
  - a missing integrity key during pay is a "Payment processing failed" validation error, not
    an internal configuration error;
  - stock equal to the quantity is accepted.

## Model

| member | source | states |
|---|---|---|
| Rop.Map | backend/src/domain/rop/result.ts:6-9 | the result is ok exactly when the input is; an error passes through unchanged |
| Rop.MapError | backend/src/domain/rop/result.ts:11-14 | the result is ok exactly when the input is; an ok value passes through unchanged |
| Rop.AndThen | backend/src/domain/rop/result.ts:16-20 | an error input is returned as it is, whatever the continuation |
| Rop.AndThenAsync | backend/src/domain/rop/result.ts:22-26 | an error input skips the continuation |
| Rop.MapOk | backend/src/domain/rop/result.ts:6-9 | map of ok(v) is ok(fn(v)) |
| Rop.MapErrorErr | backend/src/domain/rop/result.ts:11-14 | mapError of err(e) is err(fn(e)) |
| Rop.AndThenLeftIdentity | backend/src/domain/rop/result.ts:16-20 | andThen(ok(v), f) is f(v) |
| Rop.AndThenShortCircuit | backend/src/domain/rop/result.ts:16-20 | on err(e) any two continuations give the same err(e), so none is consulted |
| Rop.AndThenRightIdentity | backend/src/domain/rop/result.ts:16-20 | andThen(r, ok) is r |
| Rop.MapIsAndThenOk | backend/src/domain/rop/result.ts:6-20 | map(r, f) equals andThen(r, v => ok(f(v))) |
| Rop.AndThenAssociative | backend/src/domain/rop/result.ts:16-20 | chaining stages associates |
| Rop.AndThenAsyncIsAndThen | backend/src/domain/rop/result.ts:16-26 | andThenAsync chooses exactly as andThen does |
| NumberText.NatToDecimal | backend/src/domain/usecase/pay.usecase.ts:90 | the decimal text of a natural is non-empty, all digits, with no leading zero |
| NumberText.IntToDecimal | backend/src/domain/usecase/pay.usecase.ts:90 | the text of an integer starts with '-' exactly when it is negative |
| NumberText.ParseIntText | backend/src/domain/usecase/pay.usecase.ts:90 | text reads back exactly when it is digits or '-' followed by digits, and unsigned text reads non-negative; the inverse that IntToDecimal's round-trip lemma reads with |
| NumberText.ParseOfNatToDecimal | backend/src/domain/usecase/pay.usecase.ts:90 | parsing the decimal text of n gives back n |
| NumberText.ParseOfIntToDecimal | backend/src/domain/usecase/pay.usecase.ts:70-90 | the stored amount text reads back as the integer amount |
| NumberText.IntToDecimalInjective | backend/src/domain/usecase/pay.usecase.ts:90 | different amounts are stored as different text |
| Domain.Patched | backend/src/domain/ports/transaction-repository.port.ts:6 | a partial update writes exactly the fields the patch carries and keeps every other field |
| Stores.ActiveById | backend/src/domain/ports/product-repository.port.ts:5 | a product is found exactly when it is stored under the id and active |
| Stores.ProductStore.FindActive | backend/src/domain/ports/product-repository.port.ts:4 | exactly the stored products that are active |
| Stores.ProductStore.FindActiveById | backend/src/domain/ports/product-repository.port.ts:5 | the stored row when it is active, otherwise null |
| Stores.ProductStore.Save | backend/src/domain/ports/product-repository.port.ts:6 | the row under the product's id is replaced and the save is journalled |
| Stores.IdNumberOfTxId | backend/src/infrastructure/database/repositories/transaction.repository.ts:15-19 | a generated id reads back as the counter value it came from |
| Stores.TransactionStore.NextIdIsFresh | backend/src/infrastructure/database/repositories/transaction.repository.ts:15-19 | the next generated id is not a key of the table |
| Stores.TransactionStore.FindById | backend/src/infrastructure/database/repositories/transaction.repository.ts:33-39 | the row with the id, or null when there is none |
| Stores.TransactionStore.Create | backend/src/infrastructure/database/repositories/transaction.repository.ts:15-19 | one new row under a fresh id, with the draft's fields and null customer, delivery and reference |
| Stores.TransactionStore.Save | backend/src/infrastructure/database/repositories/transaction.repository.ts:21-27 | the row under the transaction's id is replaced, and generated ids stay fresh |
| Stores.TransactionStore.Update | backend/src/infrastructure/database/repositories/transaction.repository.ts:29-31 | the patch is applied to the row if it exists; an unknown id changes nothing |
| Wompi.GenerateSignature | backend/src/infrastructure/adapter/out/wompi/wompi.gateway.ts:34-50 | throws the configuration error exactly when the integrity key is missing or empty; otherwise the hash of reference, amount, currency and key |
| Wompi.SignaturePreimageExample | backend/src/infrastructure/adapter/out/wompi/wompi.gateway.ts:47 | ref-1, 5000, COP, integrity give "ref-15000COPintegrity" |
| Wompi.SignaturePreimageBindsAmount | backend/src/infrastructure/adapter/out/wompi/wompi.gateway.ts:47 | with the other fields fixed, equal preimages mean equal amounts |
| Wompi.SignaturePreimageBindsReference | backend/src/infrastructure/adapter/out/wompi/wompi.gateway.ts:47 | with the other fields fixed, equal preimages mean equal references |
| Wompi.ChargeRequestCarriesParams | backend/src/infrastructure/adapter/out/wompi/wompi.gateway.ts:84-105 | the body copies amount, email, card token, reference and both tokens; COP; CARD with one installment; Bearer private key; POST to /transactions |
| Wompi.FirstTruthy | backend/src/infrastructure/adapter/out/wompi/wompi.gateway.ts:116-120 | the first present non-empty candidate wins; with none, the fallback |
| Wompi.FailureMessageOrder | backend/src/infrastructure/adapter/out/wompi/wompi.gateway.ts:116-120 | error.message, then error.reason, then message, then "Unknown error from Wompi"; never empty |
| Wompi.FailureTextWithoutResponse | backend/src/infrastructure/adapter/out/wompi/wompi.gateway.ts:109-121 | with no response the thrown text is "Wompi transaction failed: N/A Unknown error from Wompi" |
| Wompi.FailureTextWithReason | backend/src/infrastructure/adapter/out/wompi/wompi.gateway.ts:109-121 | a 422 with only a reason gives "Wompi transaction failed: 422 INVALID_CARD" |
| Wompi.AdapterChargeOutcome | backend/src/infrastructure/adapter/out/wompi/wompi.gateway.ts:107-121 | returns the charge exactly when it was accepted; a rejection throws a message with the failure prefix |
| Wompi.TokenOutcome | backend/src/infrastructure/adapter/out/wompi/wompi.gateway.ts:62-66 | both tokens from a merchant reply; its failure otherwise |
| Wompi.WompiGateway.GetAcceptanceToken | backend/src/infrastructure/adapter/out/wompi/wompi.gateway.ts:52-67 | one GET of baseUrl/merchants/publicKey, then the tokens or the failure |
| Wompi.WompiGateway.CreateCardPayment | backend/src/infrastructure/adapter/out/wompi/wompi.gateway.ts:69-123 | without an integrity key it throws and posts nothing; otherwise exactly one POST of the signed body |
| ProductUseCases.GetProductUseCase.Execute | backend/src/domain/usecase/get-product.usecase.ts:9-15 | ok(product) exactly for an active stored product, else err NotFoundError('Product not found'); reads only |
| ProductUseCases.DecreaseStockUseCase.Execute | backend/src/domain/usecase/decrease-stock.usecase.ts:8-19 | throws NotFoundError with no write when absent; otherwise saves and returns the product with stock minus quantity, unbounded below |
| ProductUseCases.IncreaseStockUseCase.Execute | backend/src/domain/usecase/increase-stock.usecase.ts:9-24 | err NotFoundError with no write when absent; otherwise ok of the saved product with stock plus quantity |
| ProductUseCases.DecreaseThenIncrease | backend/src/domain/usecase/increase-stock.usecase.ts:19-22 | a decrease then an increase of the same quantity leaves the product table as it was |
| TransactionUseCases.CreateTransactionUseCase.Execute | backend/src/domain/usecase/create-transaction.usecase.ts:14-38 | throws NotFoundError or ValidationError('Insufficient stock') with no write; otherwise the product save, then one new PENDING row with amount price*quantity, which is returned |
| TransactionUseCases.CreatePendingTransactionUseCase.Execute | backend/src/domain/usecase/create-pending-transaction.usecase.ts:10-21 | one new PENDING row with the given product, quantity and amount text; the product table is not touched |
| TransactionUseCases.MarkTransactionFailedUseCase.Execute | backend/src/domain/usecase/mark-transaction-failed.usecase.ts:9-13 | only the status becomes DECLINED; no existence check and no error |
| TransactionUseCases.UpdateWompiReferenceUseCase.Execute | backend/src/domain/usecase/update-wompi-reference.usecase.ts:8-10 | only wompiReference is written; status untouched; no existence check |
| Pay.ResolveProduct | backend/src/domain/usecase/pay.usecase.ts:57-73 | NotFoundError when the product is absent or inactive, ValidationError('Not enough stock') when stock is below the quantity, otherwise the priced context; equal stock passes |
| Pay.ChargeParams | backend/src/domain/usecase/pay.usecase.ts:105-112 | the charge is for amount*100 cents with the transaction id as reference and the request's email and card |
| Pay.PayUseCase.GetAcceptanceToken | backend/src/domain/usecase/pay.usecase.ts:49-52 | the gateway's tokens as ok; a gateway failure is thrown, not returned |
| Pay.PayUseCase.ChargeStage | backend/src/domain/usecase/pay.usecase.ts:98-132 | on success only wompiReference is written; any failure writes back the product as read, sets DECLINED and returns 'Payment processing failed'; the exact request trace |
| Pay.PayUseCase.TryBlock | backend/src/domain/usecase/pay.usecase.ts:101-118 | the tokens, the charge, then the write of the charge id; the id is stored exactly when all three succeed; no product is written |
| Pay.PayUseCase.CatchBlock | backend/src/domain/usecase/pay.usecase.ts:119-130 | the product is written back as it was read, then the transaction becomes DECLINED |
| Pay.PayUseCase.Reserve | backend/src/domain/usecase/pay.usecase.ts:75-96 | the reduced product is saved before the one new PENDING row is created |
| Pay.PayUseCase.ReserveAndCharge | backend/src/domain/usecase/pay.usecase.ts:75-132 | the reservation, the new row and the gateway stage, with net stock and the full trace |
| Pay.PayUseCase.Execute | backend/src/domain/usecase/pay.usecase.ts:54-139 | rejections write nothing and call no gateway; an accepted order creates exactly one row and at most one charge; success returns {transactionId, wompiTransactionId, status} with stock minus quantity; failure leaves the product table as before and the row DECLINED |
| UpdateTransactionStatus.Reconcile | backend/src/domain/usecase/update-transaction-status.usecase.ts:14-51 | a failure writes nothing; success leaves the asked status; a transaction already in that status is ok and writes nothing; a successful move into APPROVED takes the quantity from that product's stock; any other status leaves products alone; 'Transaction not found' exactly for an unknown id |
| UpdateTransactionStatus.ReconcileIdempotent | backend/src/domain/usecase/update-transaction-status.usecase.ts:26-28 | after a successful call, the same call again returns ok and writes nothing |
| UpdateTransactionStatus.ReconcileWrites | backend/src/domain/usecase/update-transaction-status.usecase.ts:30-49 | into APPROVED: NotFound or 'Not enough stock' where due, else the reduced product stored and saved, then the status update; another status: only the status update |
| UpdateTransactionStatus.UpdateTransactionStatusUseCase.Execute | backend/src/domain/usecase/update-transaction-status.usecase.ts:14-51 | the store calls carry out Reconcile: same result, same tables, same writes in the same order |
| CheckoutFlows.PayThenApprove | backend/src/domain/usecase/update-transaction-status.usecase.ts:43-46 | a paid order approved afterwards succeeds exactly when stock covers twice the quantity, and then loses twice the quantity |
| CheckoutFlows.EndToEndScenario | backend/src/domain/usecase/pay.usecase.ts:54-139 | price 200, stock 5, two units, charge wompi-1 APPROVED: stock 3, amount "400", reference stored, result as returned by the gateway |
| ServiceMapping.Raise | backend/src/infrastructure/services/transactions.service.ts:23-32 | returns exactly a successful Result's value; a Result error is translated; a bare value throws undefined; undefined gives a TypeError; a rejection passes untouched |
| ServiceMapping.Rethrow | backend/src/infrastructure/services/transactions.service.ts:44 | the error is rethrown unchanged |
| ServiceMapping.DomainException | backend/src/infrastructure/services/payments.service.ts:32-38 | NotFoundError to NotFoundException and ValidationError to BadRequestException with the same message; anything else unchanged |
| ServiceMapping.NotFoundOnly | backend/src/infrastructure/services/products.service.ts:42-45 | only NotFoundError is translated, to NotFoundException with the same message |
| ServiceMapping.OrNull | backend/src/infrastructure/services/products.service.ts:26-32 | a successful value, else null, never an exception of its own |
| ServiceMapping.TranslationsAgreeBesideValidation | backend/src/infrastructure/services/products.service.ts:42-45 | the two translations differ exactly on ValidationError |
| ServiceMapping.DomainExceptionIsHttpOnDomainErrors | backend/src/infrastructure/services/payments.service.ts:32-38 | an error becomes an HTTP exception exactly when it was a domain error |
| PaymentsService.Pay | backend/src/infrastructure/services/payments.service.ts:27-39 | ok returns the value; NotFoundError becomes NotFoundException and ValidationError becomes BadRequestException with the same message; anything else is rethrown |
| PaymentsService.GetAcceptanceToken | backend/src/infrastructure/services/payments.service.ts:19-25 | never returns: the bare token throws undefined, and a gateway failure propagates |
| TransactionsService.Create | backend/src/infrastructure/services/transactions.service.ts:18-33 | never returns: the bare row throws undefined, and the use case's errors propagate untranslated |
| TransactionsService.CreatePending | backend/src/infrastructure/services/transactions.service.ts:35-45 | the bare created row makes it throw undefined |
| TransactionsService.UpdateWompiReference | backend/src/infrastructure/services/transactions.service.ts:47-56 | the void use case makes reading ok a TypeError |
| TransactionsService.MarkAsFailed | backend/src/infrastructure/services/transactions.service.ts:58-66 | the void use case makes reading ok a TypeError |
| ProductsService.FindAll | backend/src/infrastructure/services/products.service.ts:18-24 | the bare list makes it throw undefined |
| ProductsService.FindOne | backend/src/infrastructure/services/products.service.ts:26-32 | always returns: the product exactly when the Result is ok, else null |
| ProductsService.DecreaseStock | backend/src/infrastructure/services/products.service.ts:34-46 | never returns: the bare product throws undefined, and its NotFoundError propagates untranslated |
| ProductsService.IncreaseStock | backend/src/infrastructure/services/products.service.ts:48-60 | ok returns the value; NotFoundError becomes NotFoundException; anything else is rethrown |
| LegacyProducts.ProductsService.FindAll | backend/src/modules/products/products.service.ts:13-17 | exactly the active products |
| LegacyProducts.ProductsService.FindOne | backend/src/modules/products/products.service.ts:18-22 | only an active product matches |
| LegacyProducts.ProductsService.DecreaseStock | backend/src/modules/products/products.service.ts:23-33 | throws 'Product not found' with no save when absent or inactive; otherwise saves stock minus quantity, unbounded below |
| LegacyProducts.ProductsService.IncreaseStock | backend/src/modules/products/products.service.ts:34-41 | throws 'Product not found' with no save when absent or inactive; otherwise saves stock plus quantity |
| LegacyProducts.DecreaseThenIncrease | backend/src/modules/products/products.service.ts:30-39 | a decrease then an increase of the same quantity restores the table |
| LegacyTransactions.TransactionsService.Create | backend/src/modules/transactions/transactions.service.ts:16-46 | BadRequestException('Product not found') or ('Insufficient stock') with no write; otherwise the product save then a PENDING row with no quantity |
| LegacyTransactions.TransactionsService.CreatePending | backend/src/modules/transactions/transactions.service.ts:48-57 | one new PENDING row with product, quantity and amount text |
| LegacyTransactions.TransactionsService.UpdateWompiReference | backend/src/modules/transactions/transactions.service.ts:59-63 | only wompiReference is written |
| LegacyTransactions.TransactionsService.MarkAsFailed | backend/src/modules/transactions/transactions.service.ts:65-69 | only the status becomes DECLINED |
| LegacyPayments.LegacySignature | backend/src/modules/payments/payments.service.ts:45-61 | throws the configuration error exactly when the key is missing or empty; otherwise the hash of amount, currency, reference and key |
| LegacyPayments.LegacySignaturePreimageExample | backend/src/modules/payments/payments.service.ts:58 | 5000, COP, ref-1, integrity give "5000COPref-1integrity" |
| LegacyPayments.PreimageOrdersDiffer | backend/src/modules/payments/payments.service.ts:58 | the legacy and adapter preimages differ whenever the reference does not start with a digit |
| LegacyPayments.LegacyChargeOutcome | backend/src/modules/payments/payments.service.ts:99-122 | the charge when accepted; the raw HTTP failure otherwise |
| LegacyPayments.LegacyChargeParams | backend/src/modules/payments/payments.service.ts:154-161 | amount*100 cents with the transaction id as reference |
| LegacyPayments.PaymentsService.GetAcceptanceToken | backend/src/modules/payments/payments.service.ts:63-79 | one GET of baseUrl/merchants/publicKey, then the tokens or the failure |
| LegacyPayments.PaymentsService.CreateWompiPayment | backend/src/modules/payments/payments.service.ts:80-123 | without a key it throws and posts nothing; otherwise one POST with the legacy signature |
| LegacyPayments.PaymentsService.TryError | backend/src/modules/payments/payments.service.ts:148-173 | the try block completes exactly when tokens, key, charge and reference write all succeed |
| LegacyPayments.PaymentsService.TryCharge | backend/src/modules/payments/payments.service.ts:148-182 | success writes the reference; a failure adds the quantity back, marks DECLINED and throws BadRequestException of the error; the exact trace |
| LegacyPayments.PaymentsService.TryBlock | backend/src/modules/payments/payments.service.ts:148-173 | the first failure of the token fetch, the integrity key, the charge and the reference write is thrown; otherwise the charge id is stored; no product is written |
| LegacyPayments.PaymentsService.CatchBlock | backend/src/modules/payments/payments.service.ts:174-182 | increaseStock brings the product back to its row before the reservation, then the transaction becomes DECLINED |
| LegacyPayments.PaymentsService.Reserve | backend/src/modules/payments/payments.service.ts:137-146 | the stock is decreased before the pending row is created |
| LegacyPayments.PaymentsService.ReserveAndCharge | backend/src/modules/payments/payments.service.ts:137-182 | the reservation, the row and the try block, with net stock and trace |
| LegacyPayments.PaymentsService.Pay | backend/src/modules/payments/payments.service.ts:125-183 | NotFoundException or BadRequestException('Not enough stock') before any write; success returns the gateway's id and status; failure restores the product table and marks the row DECLINED |
| FrontendPayment.ApplyAllAppend | frontend/src/store/modules/payment.ts:36-70 | committing a then b is committing a followed by b |
| FrontendPayment.MutationTouchesOneField | frontend/src/store/modules/payment.ts:36-70 | every mutation writes its own field only; SET_TRANSACTION_STATUS leaves a null transaction alone |
| FrontendPayment.PayUnrolled | frontend/src/store/modules/payment.ts:130-148 | the six commits of pay, replayed one mutation at a time |
| FrontendPayment.PayOutcome | frontend/src/store/modules/payment.ts:130-148 | after pay: loading off, success and error as the request went, the stored transaction's status success or failed, form fields untouched |
| FrontendPayment.PaymentStore.constructor | frontend/src/store/modules/payment.ts:26-34 | the initial state |
| FrontendPayment.PaymentStore.Commit | frontend/src/store/modules/payment.ts:36-70 | the state after a commit is the mutation applied to the state before |
| FrontendPayment.PaymentStore.SetEmailAction | frontend/src/store/modules/payment.ts:73-78 | one SET_EMAIL commit |
| FrontendPayment.PaymentStore.SetQuantityAction | frontend/src/store/modules/payment.ts:79-84 | one SET_QUANTITY commit |
| FrontendPayment.PaymentStore.SetCardTokenAction | frontend/src/store/modules/payment.ts:85-90 | one SET_CARD_TOKEN commit |
| FrontendPayment.PaymentStore.SetTransactionAction | frontend/src/store/modules/payment.ts:91-96 | one SET_TRANSACTION commit |
| FrontendPayment.PaymentStore.Pay | frontend/src/store/modules/payment.ts:130-148 | the exact commit sequence for success and failure, one POST, and the resulting state |
| FrontendPayment.PaymentStore.ConfirmPayment | frontend/src/store/modules/payment.ts:97-129 | stores the pending transaction, then pays with the four backend fields; the new state is the store's commits replayed on the old one; it ends success or failed; email, quantity and card token are kept |
| FrontendProducts.ApplyAllAppend | frontend/src/store/modules/products.ts:26-39 | committing a then b is committing a followed by b |
| FrontendProducts.FetchOutcome | frontend/src/store/modules/products.ts:42-55 | after a fetch loading is off; the list is replaced on success and kept on failure, with the error set |
| FrontendProducts.ProductsStore.constructor | frontend/src/store/modules/products.ts:19-24 | the initial state |
| FrontendProducts.ProductsStore.Commit | frontend/src/store/modules/products.ts:26-39 | the state after a commit is the mutation applied to the state before |
| FrontendProducts.ProductsStore.FetchProducts | frontend/src/store/modules/products.ts:42-55 | the exact commit sequence and the resulting state |
| FrontendProducts.ProductsStore.SelectProduct | frontend/src/store/modules/products.ts:57-62 | one SET_SELECTED commit; nothing else changes |

## Left out

- HTTP is not modelled: the Wompi API and axios are an oracle object with fixed replies. Timeouts, retries and response-parsing details are not modelled. A reply without the expected fields counts as a merchant failure.
- SHA-256 is not computed; it is an uninterpreted function given to the gateway.
- Configuration (`ConfigService`) is not read; it is a `WompiConfig` record of optional strings.
- Database failures are left out, except for the write of the charge id, which is a parameter. Failures of store reads, saves and creates, and of compensation writes, are not modelled.
- Concurrency is left out: every call runs to completion before the next. The oversell race between two concurrent payments is not captured, nor the difference it makes between the two compensation styles.
- Floating point is not modelled: prices, fees, totals and quantities are integers, so fractional JavaScript numbers are not covered.
- Generated ids are modelled as a counter. The database's UUIDs are replaced by "tx-" plus the counter.
- `new Date().toISOString()` in confirmPayment is a parameter.
- NestJS wiring, controllers, modules, TypeORM entities and `console` logging are not modelled.
- ListProductsUseCase and GetAcceptanceTokenUseCase are not modelled as use cases. They are one-line pass-throughs; the services' view of them is modelled.
- The frontend's localStorage persistence (`store/index.ts`), the axios base URL and the views are not modelled.
- Status polling: none appears in the modelled store modules or services, so none is modelled.
- Stores.ProductStore.FindActive, LegacyProducts.ProductsService.FindAll, ProductsService.FindAll: the result is a set, so the order of the returned array is not modelled (the queries state no ordering).
- The `Transaction.createdAt` timestamp column is not modelled.
- Wompi.WompiGateway.GetAcceptanceToken: does not distinguish a network failure from a body with the wrong shape; both are one `MerchantFailure` error.
