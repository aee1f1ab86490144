/** The older transaction service of backend/src/modules/transactions/transactions.service.ts. */
module LegacyTransactions {
  import opened Nullable
  import opened NumberText
  import opened Domain
  import opened Stores

  const PRODUCT_NOT_FOUND: string := "Product not found"
  const INSUFFICIENT_STOCK: string := "Insufficient stock"

  class TransactionsService {
    const transactionRepository: TransactionStore
    const productRepository: ProductStore

    ghost predicate Valid()
      reads productRepository, transactionRepository
    {
      productRepository.Valid() && transactionRepository.Valid() && productRepository.journal == transactionRepository.journal
    }

    constructor (transactionRepository: TransactionStore, productRepository: ProductStore)
      ensures this.transactionRepository == transactionRepository && this.productRepository == productRepository
    {
      this.transactionRepository := transactionRepository;
      this.productRepository := productRepository;
    }

    /** create: both refusals are BadRequestException; the new row gets no quantity. */
    method Create(productId: string, quantity: int) returns (r: Outcome<Transaction>)
      requires Valid()
      modifies productRepository, transactionRepository, productRepository.journal
      ensures Valid()
      ensures old(productRepository.FindActiveById(productId)).None? ==>
        && r == Threw(BadRequestException(PRODUCT_NOT_FOUND))
        && unchanged(productRepository, transactionRepository, productRepository.journal)
      ensures var found := old(productRepository.FindActiveById(productId));
        found.Some? && found.value.stock < quantity ==>
        && r == Threw(BadRequestException(INSUFFICIENT_STOCK))
        && unchanged(productRepository, transactionRepository, productRepository.journal)
      ensures var found := old(productRepository.FindActiveById(productId));
        found.Some? && quantity <= found.value.stock ==>
        var p := found.value;
        var reduced := p.(stock := p.stock - quantity);
        var created := Transaction(old(transactionRepository.NextId()), productId, None, None,
                                   IntToDecimal(p.price * quantity), PENDING, None, None);
        && r == Returned(created)
        && created.id !in old(transactionRepository.rows)
        && productRepository.rows == old(productRepository.rows)[productId := reduced]
        && transactionRepository.rows == old(transactionRepository.rows)[created.id := created]
        && productRepository.journal.events
           == old(productRepository.journal.events) + [ProductSaved(reduced), TransactionCreated(created)]
    {
      var product := productRepository.FindActiveById(productId);
      if product.None? {
        return Threw(BadRequestException(PRODUCT_NOT_FOUND));
      }
      var p := product.value;
      if p.stock < quantity {
        return Threw(BadRequestException(INSUFFICIENT_STOCK));
      }
      p := p.(stock := p.stock - quantity);
      var _ := productRepository.Save(p);
      var amount := p.price * quantity;
      var transaction := transactionRepository.Create(TransactionDraft(productId, None, IntToDecimal(amount), PENDING));
      r := Returned(transaction);
    }

    /** createPending: a PENDING row with the given product, quantity and amount; stock untouched. */
    method CreatePending(productId: string, quantity: int, amount: int) returns (t: Transaction)
      requires Valid()
      modifies transactionRepository, transactionRepository.journal
      ensures Valid()
      ensures t == Transaction(old(transactionRepository.NextId()), productId, None, None, IntToDecimal(amount), PENDING,
                               None, Some(quantity))
      ensures t.id !in old(transactionRepository.rows)
      ensures transactionRepository.rows == old(transactionRepository.rows)[t.id := t]
      ensures transactionRepository.journal.events == old(transactionRepository.journal.events) + [TransactionCreated(t)]
    {
      t := transactionRepository.Create(TransactionDraft(productId, Some(quantity), IntToDecimal(amount), PENDING));
    }

    /** updateWompiReference: only `wompiReference` is written; an unknown id changes nothing. */
    method UpdateWompiReference(transactionId: string, wompiReference: string)
      requires Valid()
      modifies transactionRepository, transactionRepository.journal
      ensures Valid()
      ensures transactionRepository.rows == if transactionId in old(transactionRepository.rows)
        then old(transactionRepository.rows)[transactionId :=
               old(transactionRepository.rows)[transactionId].(wompiReference := Some(wompiReference))]
        else old(transactionRepository.rows)
      ensures transactionRepository.journal.events
           == old(transactionRepository.journal.events) + [TransactionUpdated(transactionId, ReferencePatch(wompiReference))]
    {
      transactionRepository.Update(transactionId, ReferencePatch(wompiReference));
    }

    /** markAsFailed: only `status` is written, to DECLINED; an unknown id changes nothing. */
    method MarkAsFailed(transactionId: string)
      requires Valid()
      modifies transactionRepository, transactionRepository.journal
      ensures Valid()
      ensures transactionRepository.rows == if transactionId in old(transactionRepository.rows)
        then old(transactionRepository.rows)[transactionId := old(transactionRepository.rows)[transactionId].(status := DECLINED)]
        else old(transactionRepository.rows)
      ensures transactionRepository.journal.events
           == old(transactionRepository.journal.events) + [TransactionUpdated(transactionId, StatusPatch(DECLINED))]
    {
      transactionRepository.Update(transactionId, StatusPatch(DECLINED));
    }
  }
}
