/** The service layer of backend/src/infrastructure/services: each method awaits one use case,
    then returns `result.value` when `result.ok`, otherwise translates or rethrows
    `result.error`. The use cases do not all settle to a Result, so the mapping is stated on
    what the service actually receives. */
module ServiceMapping {
  import opened Nullable
  import opened Domain
  import opened Rop

  /** What a service holds after awaiting its use case: a Result, a bare value (an object with
      no `ok` field), or `undefined` (a `void` use case). */
  datatype Settled<+T> = SettledResult(result: Result<T, Error>) | SettledBare(value: T) | SettledVoid

  predicate Succeeded<T>(o: Outcome<Settled<T>>) {
    o.Returned? && o.value.SettledResult? && o.value.result.Ok?
  }

  /** `if (result.ok) return result.value; throw translate(result.error)`; a use case that
      rejected has already thrown past the check. */
  function Raise<T>(o: Outcome<Settled<T>>, translate: Error -> Error): (r: Outcome<T>)
    ensures r.Returned? <==> Succeeded(o)
    ensures Succeeded(o) ==> r.value == o.value.result.value
    ensures o.Threw? ==> r == Threw(o.error)
    ensures o.Returned? && o.value.SettledResult? && o.value.result.Err? ==> r == Threw(translate(o.value.result.error))
    // A bare value has no `ok`, so its `error` (undefined) is thrown; `undefined.ok` is a TypeError.
    ensures o.Returned? && o.value.SettledBare? ==> r == Threw(UndefinedThrown)
    ensures o.Returned? && o.value.SettledVoid? ==> r == Threw(TypeErrorOnUndefined)
  {
    match o
    case Threw(e) => Threw(e)
    case Returned(SettledResult(Ok(v))) => Returned(v)
    case Returned(SettledResult(Err(e))) => Threw(translate(e))
    case Returned(SettledBare(_)) => Threw(UndefinedThrown)
    case Returned(SettledVoid) => Threw(TypeErrorOnUndefined)
  }

  /** Rethrow unchanged. */
  function Rethrow(e: Error): (x: Error)
    ensures x == e
  {
    e
  }

  /** The translation of pay and create: domain errors become the HTTP exceptions with the
      same message, anything else is rethrown as it is. */
  function DomainException(e: Error): (x: Error)
    ensures e.NotFoundError? ==> x == NotFoundException(e.message)
    ensures e.ValidationError? ==> x == BadRequestException(e.message)
    ensures !e.NotFoundError? && !e.ValidationError? ==> x == e
  {
    if e.NotFoundError? then NotFoundException(e.message)
    else if e.ValidationError? then BadRequestException(e.message)
    else e
  }

  /** The translation of decreaseStock and increaseStock: only NotFoundError is translated. */
  function NotFoundOnly(e: Error): (x: Error)
    ensures e.NotFoundError? ==> x == NotFoundException(e.message)
    ensures !e.NotFoundError? ==> x == e
  {
    if e.NotFoundError? then NotFoundException(e.message) else e
  }

  /** findOne: `if (result.ok) return result.value; return null`. */
  function OrNull<T>(o: Outcome<Settled<T>>): (r: Outcome<Option<T>>)
    ensures r.Returned? <==> o.Returned?
    ensures o.Threw? ==> r == Threw(o.error)
    ensures r.Returned? ==> (r.value.Some? <==> Succeeded(o))
    ensures Succeeded(o) ==> r == Returned(Some(o.value.result.value))
  {
    match o
    case Threw(e) => Threw(e)
    case Returned(SettledResult(Ok(v))) => Returned(Some(v))
    case Returned(_) => Returned(None)
  }

  /** The two translations differ only on ValidationError, which NotFoundOnly passes through. */
  lemma TranslationsAgreeBesideValidation(e: Error)
    ensures e.ValidationError? <==> DomainException(e) != NotFoundOnly(e)
  {
  }

  /** A translated error is an HTTP exception exactly when it was a domain error. */
  lemma DomainExceptionIsHttpOnDomainErrors(e: Error)
    requires !e.NotFoundException? && !e.BadRequestException?
    ensures (DomainException(e).NotFoundException? || DomainException(e).BadRequestException?)
            <==> (e.NotFoundError? || e.ValidationError?)
  {
  }
}

/** backend/src/infrastructure/services/payments.service.ts */
module PaymentsService {
  import opened Domain
  import opened Rop
  import opened ServiceMapping

  /** pay, over the Result PayUseCase.execute settles to. */
  function Pay(settled: Result<PayResult, Error>): (r: Outcome<PayResult>)
    ensures settled.Ok? ==> r == Returned(settled.value)
    ensures settled.Err? && settled.error.NotFoundError? ==> r == Threw(NotFoundException(settled.error.message))
    ensures settled.Err? && settled.error.ValidationError? ==> r == Threw(BadRequestException(settled.error.message))
    ensures settled.Err? && !settled.error.NotFoundError? && !settled.error.ValidationError? ==> r == Threw(settled.error)
  {
    Raise(Returned(SettledResult(settled)), DomainException)
  }

  /** getAcceptanceToken: the use case returns the bare token, so a fetched token never comes
      back; a gateway failure propagates as it was thrown. */
  function GetAcceptanceToken(settled: Outcome<AcceptanceToken>): (r: Outcome<AcceptanceToken>)
    ensures r.Threw?
    ensures settled.Threw? ==> r == settled
    ensures settled.Returned? ==> r == Threw(UndefinedThrown)
  {
    Raise(if settled.Threw? then Threw(settled.error) else Returned(SettledBare(settled.value)), Rethrow)
  }
}

/** backend/src/infrastructure/services/transactions.service.ts */
module TransactionsService {
  import opened Domain
  import opened Rop
  import opened ServiceMapping

  /** create: CreateTransactionUseCase throws its domain errors and returns the bare row, so the
      translation branches are never reached: its errors propagate untranslated. */
  function Create(settled: Outcome<Transaction>): (r: Outcome<Transaction>)
    ensures r.Threw?
    ensures settled.Threw? ==> r == settled
    ensures settled.Returned? ==> r == Threw(UndefinedThrown)
  {
    Raise(if settled.Threw? then Threw(settled.error) else Returned(SettledBare(settled.value)), DomainException)
  }

  /** createPending: the use case returns the bare created row. */
  function CreatePending(created: Transaction): (r: Outcome<Transaction>)
    ensures r == Threw(UndefinedThrown)
  {
    Raise(Returned(SettledBare(created)), Rethrow)
  }

  /** updateWompiReference and markAsFailed: their use cases return nothing, so the write has
      been made and reading `ok` then fails. */
  function UpdateWompiReference(): (r: Outcome<()>)
    ensures r == Threw(TypeErrorOnUndefined)
  {
    Raise(Returned(SettledVoid), Rethrow)
  }

  function MarkAsFailed(): (r: Outcome<()>)
    ensures r == Threw(TypeErrorOnUndefined)
  {
    Raise(Returned(SettledVoid), Rethrow)
  }
}

/** backend/src/infrastructure/services/products.service.ts */
module ProductsService {
  import opened Nullable
  import opened Domain
  import opened Rop
  import opened ServiceMapping

  /** findAll: the list use case returns the bare list of active products. */
  function FindAll(active: set<Product>): (r: Outcome<set<Product>>)
    ensures r == Threw(UndefinedThrown)
  {
    Raise(Returned(SettledBare(active)), Rethrow)
  }

  /** findOne: GetProductUseCase's error becomes null, never an exception. */
  function FindOne(settled: Result<Product, Error>): (r: Outcome<Option<Product>>)
    ensures r.Returned?
    ensures r.value.Some? <==> settled.Ok?
    ensures settled.Ok? ==> r.value.value == settled.value
  {
    OrNull(Returned(SettledResult(settled)))
  }

  /** decreaseStock: DecreaseStockUseCase throws its NotFoundError and returns the bare product,
      so the error propagates untranslated and a saved product never comes back. */
  function DecreaseStock(settled: Outcome<Product>): (r: Outcome<Product>)
    ensures r.Threw?
    ensures settled.Threw? ==> r == settled
    ensures settled.Returned? ==> r == Threw(UndefinedThrown)
  {
    Raise(if settled.Threw? then Threw(settled.error) else Returned(SettledBare(settled.value)), NotFoundOnly)
  }

  /** increaseStock, over the Result IncreaseStockUseCase settles to. */
  function IncreaseStock(settled: Result<Product, Error>): (r: Outcome<Product>)
    ensures settled.Ok? ==> r == Returned(settled.value)
    ensures settled.Err? && settled.error.NotFoundError? ==> r == Threw(NotFoundException(settled.error.message))
    ensures settled.Err? && !settled.error.NotFoundError? ==> r == Threw(settled.error)
  {
    Raise(Returned(SettledResult(settled)), NotFoundOnly)
  }
}
