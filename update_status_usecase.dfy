/** The status reconciler of backend/src/domain/usecase/update-transaction-status.usecase.ts:
    moves a stored transaction to a new status, and on the way into APPROVED checks and takes
    the product's stock. */
module UpdateTransactionStatus {
  import opened Nullable
  import opened Domain
  import opened Rop
  import opened Stores

  const TRANSACTION_NOT_FOUND: string := "Transaction not found"
  const PRODUCT_NOT_FOUND: string := "Product not found"
  const NOT_ENOUGH_STOCK: string := "Not enough stock"

  /** What one reconciliation returns, the two tables afterwards, and the writes it made. */
  datatype Reconciliation = Reconciliation(
    result: Result<(), Error>,
    products: map<string, Product>,
    transactions: map<string, Transaction>,
    effects: seq<Effect>)

  /** The reconciler as a function of the two tables. */
  function Reconcile(products: map<string, Product>, transactions: map<string, Transaction>,
                     id: string, status: string): (s: Reconciliation)
    // A failure writes nothing.
    ensures s.result.Err? ==> s.products == products && s.transactions == transactions && s.effects == []
    // Success leaves the transaction in the asked-for status.
    ensures s.result.Ok? ==> id in transactions && s.transactions == transactions[id := transactions[id].(status := status)]
    // Only the stock of the transaction's product can change, and only on the way into APPROVED,
    // where it drops by the transaction's quantity.
    ensures s.products.Keys == products.Keys
    ensures s.products != products ==>
              && status == APPROVED && id in transactions && transactions[id].status != APPROVED
              && var pid := transactions[id].productId;
                 pid in products && s.products == products[pid := products[pid].(stock := products[pid].stock - QuantityValue(transactions[id]))]
    ensures s.result == Err(NotFoundError(TRANSACTION_NOT_FOUND)) <==> id !in transactions
    // A transaction already in the asked-for status: ok, and nothing is written.
    ensures id in transactions && transactions[id].status == status ==>
              s == Reconciliation(Ok(()), products, transactions, [])
    // A successful move into APPROVED takes the quantity from the product's stock.
    ensures s.result.Ok? && id in transactions && status == APPROVED && transactions[id].status != APPROVED ==>
              var pid := transactions[id].productId;
              pid in products && s.products == products[pid := products[pid].(stock := products[pid].stock - QuantityValue(transactions[id]))]
    // Any other status leaves the product table alone.
    ensures status != APPROVED ==> s.products == products
  {
    if id !in transactions then
      Reconciliation(Err(NotFoundError(TRANSACTION_NOT_FOUND)), products, transactions, [])
    else
      var t := transactions[id];
      if t.status == status then
        Reconciliation(Ok(()), products, transactions, [])
      else if status == APPROVED then
        var found := ActiveById(products, t.productId);
        if found.None? then
          Reconciliation(Err(NotFoundError(PRODUCT_NOT_FOUND)), products, transactions, [])
        else if found.value.stock < QuantityValue(t) then
          Reconciliation(Err(ValidationError(NOT_ENOUGH_STOCK)), products, transactions, [])
        else
          var reduced := found.value.(stock := found.value.stock - QuantityValue(t));
          Reconciliation(Ok(()), products[t.productId := reduced],
                         transactions[id := Patched(t, StatusPatch(APPROVED))],
                         [ProductSaved(reduced), TransactionUpdated(id, StatusPatch(APPROVED))])
      else
        Reconciliation(Ok(()), products, transactions[id := Patched(t, StatusPatch(status))],
                       [TransactionUpdated(id, StatusPatch(status))])
  }

  /** Applying the same status twice: once the first call succeeded, the second returns ok and
      writes nothing. */
  lemma ReconcileIdempotent(products: map<string, Product>, transactions: map<string, Transaction>,
                            id: string, status: string)
    requires Reconcile(products, transactions, id, status).result.Ok?
    ensures var s := Reconcile(products, transactions, id, status);
            Reconcile(s.products, s.transactions, id, status) == Reconciliation(Ok(()), s.products, s.transactions, [])
  {
  }

  /** The branches that write, and the order of their writes: the product first. */
  lemma ReconcileWrites(products: map<string, Product>, transactions: map<string, Transaction>,
                        id: string, status: string)
    requires id in transactions && transactions[id].status != status
    ensures var s := Reconcile(products, transactions, id, status);
            var t := transactions[id];
            var found := ActiveById(products, t.productId);
            && (status != APPROVED ==> s.result.Ok? && s.effects == [TransactionUpdated(id, StatusPatch(status))])
            && (status == APPROVED ==>
                  && (s.result.Ok? <==> found.Some? && QuantityValue(t) <= found.value.stock)
                  && (found.None? ==> s.result == Err(NotFoundError(PRODUCT_NOT_FOUND)))
                  && (found.Some? && found.value.stock < QuantityValue(t) ==> s.result == Err(ValidationError(NOT_ENOUGH_STOCK)))
                  && (s.result.Ok? ==>
                        && s.products == products[t.productId := found.value.(stock := found.value.stock - QuantityValue(t))]
                        && s.effects == [ProductSaved(found.value.(stock := found.value.stock - QuantityValue(t))),
                                         TransactionUpdated(id, StatusPatch(APPROVED))]))
  {
  }

  class UpdateTransactionStatusUseCase {
    const productRepository: ProductStore
    const transactionRepository: TransactionStore

    ghost predicate Valid()
      reads productRepository, transactionRepository
    {
      productRepository.Valid() && transactionRepository.Valid() && productRepository.journal == transactionRepository.journal
    }

    constructor (productRepository: ProductStore, transactionRepository: TransactionStore)
      ensures this.productRepository == productRepository && this.transactionRepository == transactionRepository
    {
      this.productRepository := productRepository;
      this.transactionRepository := transactionRepository;
    }

    /** execute: the store calls that carry out Reconcile, in its order. */
    method Execute(transactionId: string, status: string) returns (r: Result<(), Error>)
      requires Valid()
      modifies productRepository, transactionRepository, productRepository.journal
      ensures Valid()
      ensures var s := Reconcile(old(productRepository.rows), old(transactionRepository.rows), transactionId, status);
              && r == s.result
              && productRepository.rows == s.products
              && transactionRepository.rows == s.transactions
              && productRepository.journal.events == old(productRepository.journal.events) + s.effects
    {
      var transaction := transactionRepository.FindById(transactionId);
      if transaction.None? {
        return Err(NotFoundError(TRANSACTION_NOT_FOUND));
      }
      var t := transaction.value;
      if t.status == status {
        return Ok(());
      }
      if status == APPROVED {
        var product := productRepository.FindActiveById(t.productId);
        if product.None? {
          return Err(NotFoundError(PRODUCT_NOT_FOUND));
        }
        var p := product.value;
        if p.stock < QuantityValue(t) {
          return Err(ValidationError(NOT_ENOUGH_STOCK));
        }
        var _ := productRepository.Save(p.(stock := p.stock - QuantityValue(t)));
      }
      transactionRepository.Update(transactionId, StatusPatch(status));
      r := Ok(());
    }
  }
}
