/** Entities, statuses, errors and port records of the backend domain
    (backend/src/domain/entities, enums, errors and ports). */
module Domain {
  import opened Nullable

  /** A catalogue product. Price and stock are integers: fractional prices are not modelled.
      Stock is an unbounded integer, because the decrease operations never check a lower bound. */
  datatype Product = Product(
    id: string,
    name: string,
    description: string,
    price: int,
    stock: int,
    active: bool)

  // TransactionStatus: the status column itself is free text.
  const PENDING: string := "PENDING"
  const APPROVED: string := "APPROVED"
  const DECLINED: string := "DECLINED"

  /** A transaction row. `quantity` may be null: the legacy create writes no quantity.
      The createdAt and updatedAt timestamps are not modelled. */
  datatype Transaction = Transaction(
    id: string,
    productId: string,
    customerId: Option<string>,
    deliveryId: Option<string>,
    amount: string,
    status: string,
    wompiReference: Option<string>,
    quantity: Option<int>)

  /** The fields a caller hands to TransactionRepository.create. */
  datatype TransactionDraft = TransactionDraft(
    productId: string,
    quantity: Option<int>,
    amount: string,
    status: string)

  /** The Partial<Transaction> handed to update: a present field is written, an absent one kept. */
  datatype TransactionPatch = TransactionPatch(status: Option<string>, wompiReference: Option<string>)

  function StatusPatch(status: string): TransactionPatch {
    TransactionPatch(Some(status), None)
  }

  function ReferencePatch(wompiReference: string): TransactionPatch {
    TransactionPatch(None, Some(wompiReference))
  }

  /** The row after an update with `patch`: exactly the fields present in the patch change. */
  function Patched(t: Transaction, patch: TransactionPatch): (u: Transaction)
    ensures u.id == t.id && u.productId == t.productId && u.amount == t.amount && u.quantity == t.quantity
    ensures u.customerId == t.customerId && u.deliveryId == t.deliveryId
    ensures u.status == (if patch.status.Some? then patch.status.value else t.status)
    ensures u.wompiReference == (if patch.wompiReference.Some? then patch.wompiReference else t.wompiReference)
  {
    t.(status := if patch.status.Some? then patch.status.value else t.status,
       wompiReference := if patch.wompiReference.Some? then patch.wompiReference else t.wompiReference)
  }

  /** The quantity as JavaScript arithmetic and comparison see it: null counts as 0. */
  function QuantityValue(t: Transaction): int {
    if t.quantity.Some? then t.quantity.value else 0
  }

  /** The body of a failed Wompi response, as far as the adapter reads it. */
  datatype ErrorDetail = ErrorDetail(message: Option<string>, reason: Option<string>)
  datatype ErrorPayload = ErrorPayload(error: Option<ErrorDetail>, message: Option<string>)

  /** Everything the model lets a call throw or return as an error. */
  datatype Error =
    | NotFoundError(message: string)              // domain/errors
    | ValidationError(message: string)            // domain/errors
    | NotFoundException(message: string)          // NestJS, answered with 404
    | BadRequestException(message: string)        // NestJS, answered with 400
    | BadRequestFrom(cause: Error)                // NestJS BadRequestException built from a caught error
    | PlainError(message: string)                 // `new Error(message)`
    | HttpFailure(status: Option<int>, data: Option<ErrorPayload>)   // a rejected HTTP request
    | UndefinedThrown                             // `throw x.error` where `x` has no `error` field
    | TypeErrorOnUndefined                        // reading a property of `undefined`

  /** How a call that may throw ends: it returns a value or it throws (rejects its promise). */
  datatype Outcome<+T> = Returned(value: T) | Threw(error: Error)

  // Records of the payment-gateway port.

  datatype PayRequest = PayRequest(productId: string, quantity: int, cardToken: string, email: string)

  datatype PayResult = PayResult(transactionId: string, wompiTransactionId: string, status: string)

  datatype AcceptanceToken = AcceptanceToken(acceptanceToken: string, acceptanceTokenPersonal: string)

  datatype CardPaymentParams = CardPaymentParams(
    amountInCents: int,
    email: string,
    cardToken: string,
    reference: string,
    acceptanceToken: string,
    acceptanceTokenPersonal: string)

  datatype CardPaymentResult = CardPaymentResult(id: string, status: string)

  // The Wompi wire format of a card charge.

  datatype PaymentMethod = PaymentMethod(kind: string, token: string, installments: int)

  datatype ChargeBody = ChargeBody(
    amountInCents: int,
    currency: string,
    customerEmail: string,
    paymentMethod: PaymentMethod,
    reference: string,
    acceptanceToken: string,
    acceptPersonalAuth: string,
    signature: string)

  /** A POST to the gateway: its URL, its JSON body and its Authorization header. */
  datatype ChargeRequest = ChargeRequest(url: string, body: ChargeBody, authorization: string)
}
