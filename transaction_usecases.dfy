/** The use cases that write transaction rows: create-transaction.usecase.ts,
    create-pending-transaction.usecase.ts, mark-transaction-failed.usecase.ts and
    update-wompi-reference.usecase.ts. */
module TransactionUseCases {
  import opened Nullable
  import opened NumberText
  import opened Domain
  import opened Stores

  const PRODUCT_NOT_FOUND: string := "Product not found"
  const INSUFFICIENT_STOCK: string := "Insufficient stock"

  /** The row a create with this draft inserts as the store's next transaction. */
  function CreatedRow(id: string, draft: TransactionDraft): Transaction {
    Transaction(id, draft.productId, None, None, draft.amount, draft.status, None, draft.quantity)
  }

  /** Check stock, save the product with the stock lowered, then create a PENDING transaction and
      return it. Failures are thrown, not returned as a Result. */
  class CreateTransactionUseCase {
    const productRepository: ProductStore
    const transactionRepository: TransactionStore

    ghost predicate Valid()
      reads productRepository, transactionRepository
    {
      productRepository.Valid() && transactionRepository.Valid() && productRepository.journal == transactionRepository.journal
    }

    constructor (productRepository: ProductStore, transactionRepository: TransactionStore)
      ensures this.productRepository == productRepository && this.transactionRepository == transactionRepository
    {
      this.productRepository := productRepository;
      this.transactionRepository := transactionRepository;
    }

    method Execute(productId: string, quantity: int) returns (r: Outcome<Transaction>)
      requires Valid()
      modifies productRepository, transactionRepository, productRepository.journal
      ensures Valid()
      ensures var found := old(productRepository.FindActiveById(productId));
        && (found.None? ==>
              && r == Threw(NotFoundError(PRODUCT_NOT_FOUND))
              && unchanged(productRepository, transactionRepository, productRepository.journal))
        && (found.Some? && found.value.stock < quantity ==>
              && r == Threw(ValidationError(INSUFFICIENT_STOCK))
              && unchanged(productRepository, transactionRepository, productRepository.journal))
        && (found.Some? && found.value.stock >= quantity ==>
              var reduced := found.value.(stock := found.value.stock - quantity);
              var created := CreatedRow(old(transactionRepository.NextId()),
                TransactionDraft(productId, Some(quantity), IntToDecimal(found.value.price * quantity), PENDING));
              && r == Returned(created)
              && productRepository.rows == old(productRepository.rows)[productId := reduced]
              && created.id !in old(transactionRepository.rows)
              && transactionRepository.rows == old(transactionRepository.rows)[created.id := created]
              && productRepository.journal.events
                 == old(productRepository.journal.events) + [ProductSaved(reduced), TransactionCreated(created)])
    {
      var product := productRepository.FindActiveById(productId);
      if product.None? {
        r := Threw(NotFoundError(PRODUCT_NOT_FOUND));
        return;
      }
      if product.value.stock < quantity {
        r := Threw(ValidationError(INSUFFICIENT_STOCK));
        return;
      }
      var _ := productRepository.Save(product.value.(stock := product.value.stock - quantity));
      var amount := product.value.price * quantity;
      var t := transactionRepository.Create(TransactionDraft(productId, Some(quantity), IntToDecimal(amount), PENDING));
      r := Returned(t);
    }
  }

  /** A single insert of a PENDING row; the product store is not involved. */
  class CreatePendingTransactionUseCase {
    const transactionRepository: TransactionStore

    constructor (transactionRepository: TransactionStore)
      ensures this.transactionRepository == transactionRepository
    {
      this.transactionRepository := transactionRepository;
    }

    method Execute(productId: string, quantity: int, amount: int) returns (t: Transaction)
      requires transactionRepository.Valid()
      modifies transactionRepository, transactionRepository.journal
      ensures transactionRepository.Valid()
      ensures t == CreatedRow(old(transactionRepository.NextId()),
                              TransactionDraft(productId, Some(quantity), IntToDecimal(amount), PENDING))
      ensures t.id !in old(transactionRepository.rows)
      ensures transactionRepository.rows == old(transactionRepository.rows)[t.id := t]
      ensures transactionRepository.journal.events == old(transactionRepository.journal.events) + [TransactionCreated(t)]
    {
      t := transactionRepository.Create(TransactionDraft(productId, Some(quantity), IntToDecimal(amount), PENDING));
    }
  }

  /** Writes status DECLINED onto the id, without checking that the row exists. */
  class MarkTransactionFailedUseCase {
    const transactionRepository: TransactionStore

    constructor (transactionRepository: TransactionStore)
      ensures this.transactionRepository == transactionRepository
    {
      this.transactionRepository := transactionRepository;
    }

    method Execute(transactionId: string)
      requires transactionRepository.Valid()
      modifies transactionRepository, transactionRepository.journal
      ensures transactionRepository.Valid()
      ensures transactionRepository.rows ==
        if transactionId in old(transactionRepository.rows)
        then old(transactionRepository.rows)[transactionId := old(transactionRepository.rows)[transactionId].(status := DECLINED)]
        else old(transactionRepository.rows)
      ensures transactionRepository.journal.events
           == old(transactionRepository.journal.events) + [TransactionUpdated(transactionId, StatusPatch(DECLINED))]
    {
      transactionRepository.Update(transactionId, StatusPatch(DECLINED));
    }
  }

  /** Writes the gateway's charge id onto the id, without checking that the row exists. */
  class UpdateWompiReferenceUseCase {
    const transactionRepository: TransactionStore

    constructor (transactionRepository: TransactionStore)
      ensures this.transactionRepository == transactionRepository
    {
      this.transactionRepository := transactionRepository;
    }

    method Execute(transactionId: string, wompiReference: string)
      requires transactionRepository.Valid()
      modifies transactionRepository, transactionRepository.journal
      ensures transactionRepository.Valid()
      ensures transactionRepository.rows ==
        if transactionId in old(transactionRepository.rows)
        then old(transactionRepository.rows)[transactionId :=
               old(transactionRepository.rows)[transactionId].(wompiReference := Some(wompiReference))]
        else old(transactionRepository.rows)
      ensures transactionRepository.journal.events
           == old(transactionRepository.journal.events) + [TransactionUpdated(transactionId, ReferencePatch(wompiReference))]
    {
      transactionRepository.Update(transactionId, ReferencePatch(wompiReference));
    }
  }
}
