/** The older product service of backend/src/modules/products/products.service.ts, which works
    on the product table directly and throws plain errors. */
module LegacyProducts {
  import opened Nullable
  import opened Domain
  import opened Stores

  const PRODUCT_NOT_FOUND: string := "Product not found"

  class ProductsService {
    const productRepository: ProductStore

    constructor (productRepository: ProductStore)
      ensures this.productRepository == productRepository
    {
      this.productRepository := productRepository;
    }

    /** findAll: the active products. */
    function FindAll(): (r: set<Product>)
      reads productRepository
      ensures forall p :: p in r <==> p in productRepository.rows.Values && p.active
    {
      productRepository.FindActive()
    }

    /** findOne: only an active product matches. */
    function FindOne(id: string): (r: Option<Product>)
      reads productRepository
      ensures r.Some? <==> id in productRepository.rows && productRepository.rows[id].active
      ensures r.Some? ==> r.value == productRepository.rows[id]
    {
      productRepository.FindActiveById(id)
    }

    /** decreaseStock: subtracts in place and saves; no lower bound. */
    method DecreaseStock(productId: string, quantity: int) returns (r: Outcome<Product>)
      requires productRepository.Valid()
      modifies productRepository, productRepository.journal
      ensures productRepository.Valid()
      ensures old(FindOne(productId)).None? ==>
        r == Threw(PlainError(PRODUCT_NOT_FOUND)) && unchanged(productRepository, productRepository.journal)
      ensures old(FindOne(productId)).Some? ==>
        var p := old(productRepository.rows)[productId];
        && r == Returned(p.(stock := p.stock - quantity))
        && productRepository.rows == old(productRepository.rows)[productId := r.value]
        && productRepository.journal.events == old(productRepository.journal.events) + [ProductSaved(r.value)]
    {
      var product := FindOne(productId);
      if product.None? {
        return Threw(PlainError(PRODUCT_NOT_FOUND));
      }
      var p := product.value.(stock := product.value.stock - quantity);
      var saved := productRepository.Save(p);
      r := Returned(saved);
    }

    /** increaseStock: adds in place and saves. */
    method IncreaseStock(productId: string, quantity: int) returns (r: Outcome<Product>)
      requires productRepository.Valid()
      modifies productRepository, productRepository.journal
      ensures productRepository.Valid()
      ensures old(FindOne(productId)).None? ==>
        r == Threw(PlainError(PRODUCT_NOT_FOUND)) && unchanged(productRepository, productRepository.journal)
      ensures old(FindOne(productId)).Some? ==>
        var p := old(productRepository.rows)[productId];
        && r == Returned(p.(stock := p.stock + quantity))
        && productRepository.rows == old(productRepository.rows)[productId := r.value]
        && productRepository.journal.events == old(productRepository.journal.events) + [ProductSaved(r.value)]
    {
      var product := FindOne(productId);
      if product.None? {
        return Threw(PlainError(PRODUCT_NOT_FOUND));
      }
      var p := product.value.(stock := product.value.stock + quantity);
      var saved := productRepository.Save(p);
      r := Returned(saved);
    }
  }

  /** A decrease then an increase of the same quantity leaves the table as it was. */
  method DecreaseThenIncrease(service: ProductsService, productId: string, quantity: int)
    requires service.productRepository.Valid()
    modifies service.productRepository, service.productRepository.journal
    ensures service.productRepository.rows == old(service.productRepository.rows)
  {
    ghost var before := service.productRepository.rows;
    var lowered := service.DecreaseStock(productId, quantity);
    var raised := service.IncreaseStock(productId, quantity);
    if lowered.Returned? {
      assert service.productRepository.rows == before[productId := before[productId]];
    }
  }
}
