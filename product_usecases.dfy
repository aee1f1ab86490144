/** The use cases over the product store alone: decrease-stock.usecase.ts,
    increase-stock.usecase.ts and get-product.usecase.ts. */
module ProductUseCases {
  import opened Nullable
  import opened Domain
  import opened Rop
  import opened Stores

  const PRODUCT_NOT_FOUND: string := "Product not found"

  /** findActiveById mapped to a Result: the active product as found, or NotFoundError. */
  class GetProductUseCase {
    const productRepository: ProductStore

    constructor (productRepository: ProductStore)
      ensures this.productRepository == productRepository
    {
      this.productRepository := productRepository;
    }

    function Execute(id: string): (r: Result<Product, Error>)
      reads productRepository
      ensures r.Ok? <==> id in productRepository.rows && productRepository.rows[id].active
      ensures r.Ok? ==> r.value == productRepository.rows[id]
      ensures r.Err? ==> r.error == NotFoundError(PRODUCT_NOT_FOUND)
    {
      var product := productRepository.FindActiveById(id);
      if product.None? then Err(NotFoundError(PRODUCT_NOT_FOUND)) else Ok(product.value)
    }
  }

  /** Read the active product, then save it with its stock lowered by `quantity`; throws
      NotFoundError when there is no such product. There is no lower bound on the new stock. */
  class DecreaseStockUseCase {
    const productRepository: ProductStore

    constructor (productRepository: ProductStore)
      ensures this.productRepository == productRepository
    {
      this.productRepository := productRepository;
    }

    method Execute(productId: string, quantity: int) returns (r: Outcome<Product>)
      requires productRepository.Valid()
      modifies productRepository, productRepository.journal
      ensures productRepository.Valid()
      ensures var found := old(productRepository.FindActiveById(productId));
        && (found.None? ==>
              && r == Threw(NotFoundError(PRODUCT_NOT_FOUND))
              && productRepository.rows == old(productRepository.rows)
              && productRepository.journal.events == old(productRepository.journal.events))
        && (found.Some? ==>
              var saved := found.value.(stock := found.value.stock - quantity);
              && r == Returned(saved)
              && productRepository.rows == old(productRepository.rows)[productId := saved]
              && productRepository.journal.events == old(productRepository.journal.events) + [ProductSaved(saved)])
    {
      var product := productRepository.FindActiveById(productId);
      if product.None? {
        r := Threw(NotFoundError(PRODUCT_NOT_FOUND));
        return;
      }
      var saved := productRepository.Save(product.value.(stock := product.value.stock - quantity));
      r := Returned(saved);
    }
  }

  /** Read the active product, then save it with its stock raised by `quantity`; an error
      Result (not an exception) when there is no such product. */
  class IncreaseStockUseCase {
    const productRepository: ProductStore

    constructor (productRepository: ProductStore)
      ensures this.productRepository == productRepository
    {
      this.productRepository := productRepository;
    }

    method Execute(productId: string, quantity: int) returns (r: Result<Product, Error>)
      requires productRepository.Valid()
      modifies productRepository, productRepository.journal
      ensures productRepository.Valid()
      ensures var found := old(productRepository.FindActiveById(productId));
        && (found.None? ==>
              && r == Err(NotFoundError(PRODUCT_NOT_FOUND))
              && productRepository.rows == old(productRepository.rows)
              && productRepository.journal.events == old(productRepository.journal.events))
        && (found.Some? ==>
              var saved := found.value.(stock := found.value.stock + quantity);
              && r == Ok(saved)
              && productRepository.rows == old(productRepository.rows)[productId := saved]
              && productRepository.journal.events == old(productRepository.journal.events) + [ProductSaved(saved)])
    {
      var product := productRepository.FindActiveById(productId);
      if product.None? {
        r := Err(NotFoundError(PRODUCT_NOT_FOUND));
        return;
      }
      var saved := productRepository.Save(product.value.(stock := product.value.stock + quantity));
      r := Ok(saved);
    }
  }

  /** A decrease followed by an increase of the same quantity leaves the product store as it was. */
  method DecreaseThenIncrease(decrease: DecreaseStockUseCase, increase: IncreaseStockUseCase, productId: string, quantity: int)
    requires decrease.productRepository == increase.productRepository
    requires decrease.productRepository.Valid()
    modifies decrease.productRepository, decrease.productRepository.journal
    ensures decrease.productRepository.rows == old(decrease.productRepository.rows)
  {
    var store := decrease.productRepository;
    ghost var before := store.rows;
    var lowered := decrease.Execute(productId, quantity);
    var raised := increase.Execute(productId, quantity);
    if lowered.Returned? {
      assert store.rows == before[productId := before[productId]];
    }
  }
}
