/** The checkout orchestrator of backend/src/domain/usecase/pay.usecase.ts: look up and check
    the product, reserve its stock, create a PENDING transaction, then fetch acceptance tokens,
    charge the card and store the charge id; a failure in that last stage writes the product
    back as it was read and marks the transaction DECLINED. */
module Pay {
  import opened Nullable
  import opened NumberText
  import opened Domain
  import opened Rop
  import opened Stores
  import opened Wompi

  const PRODUCT_NOT_FOUND: string := "Product not found"
  const NOT_ENOUGH_STOCK: string := "Not enough stock"
  const PAYMENT_FAILED: string := "Payment processing failed"

  /** What the stages hand on to each other. */
  datatype PayContext = PayContext(request: PayRequest, product: Product, amount: int)
  datatype PayContextWithTransaction = PayContextWithTransaction(ctx: PayContext, transaction: Transaction)
  datatype PayContextWithPayment = PayContextWithPayment(ctx: PayContext, transaction: Transaction, wompiTransaction: CardPaymentResult)

  /** The first stage once the product has been looked up: a missing product, then short stock,
      are rejected; otherwise the order is priced. Stock equal to the quantity is enough. */
  function ResolveProduct(found: Option<Product>, request: PayRequest): (r: Result<PayContext, Error>)
    ensures r.Ok? <==> found.Some? && request.quantity <= found.value.stock
    ensures found.None? ==> r == Err(NotFoundError(PRODUCT_NOT_FOUND))
    ensures found.Some? && found.value.stock < request.quantity ==> r == Err(ValidationError(NOT_ENOUGH_STOCK))
    ensures r.Ok? ==> r.value.request == request && r.value.product == found.value
                      && r.value.amount == found.value.price * request.quantity
  {
    if found.None? then Err(NotFoundError(PRODUCT_NOT_FOUND))
    else if found.value.stock < request.quantity then Err(ValidationError(NOT_ENOUGH_STOCK))
    else Ok(PayContext(request, found.value, found.value.price * request.quantity))
  }

  /** The charge for a priced order: amount in cents, and the transaction id as the reference. */
  function ChargeParams(c: PayContextWithTransaction, token: AcceptanceToken): (params: CardPaymentParams)
    ensures params.amountInCents == c.ctx.amount * 100 && params.reference == c.transaction.id
    ensures params.email == c.ctx.request.email && params.cardToken == c.ctx.request.cardToken
  {
    CardPaymentParams(c.ctx.amount * 100, c.ctx.request.email, c.ctx.request.cardToken, c.transaction.id,
                      token.acceptanceToken, token.acceptanceTokenPersonal)
  }

  function Summary(c: PayContextWithPayment): PayResult {
    PayResult(c.transaction.id, c.wompiTransaction.id, c.wompiTransaction.status)
  }

  /** Whether the gateway stage gets through: tokens fetched, integrity key set, card charged and
      the charge id stored. */
  predicate ChargeSucceeds(gateway: WompiGateway, referenceUpdateFails: bool) {
    && gateway.api.merchantReply.MerchantData?
    && Truthy(gateway.config.integrityKey)
    && gateway.api.chargeReply.Charged?
    && !referenceUpdateFails
  }

  /** The card charge the gateway stage posts, once tokens were fetched and the key is set. */
  function PostedCharge(gateway: WompiGateway, c: PayContextWithTransaction): ChargeRequest
    requires gateway.api.merchantReply.MerchantData? && Truthy(gateway.config.integrityKey)
  {
    var reply := gateway.api.merchantReply;
    var params := ChargeParams(c, AcceptanceToken(reply.acceptanceToken, reply.personalToken));
    ChargeRequestFor(gateway.config, params,
      gateway.hash(SignaturePreimage(params.reference, params.amountInCents, CURRENCY, gateway.config.integrityKey.value)))
  }

  /** The writes of the catch block: the product as it was read, and the transaction DECLINED. */
  function Compensation(c: PayContextWithTransaction): seq<Effect> {
    [ProductSaved(c.ctx.product), TransactionUpdated(c.transaction.id, StatusPatch(DECLINED))]
  }

  /** The requests and writes of the try block, in order: the merchant fetch; the charge once
      tokens and key are there; the write of the charge id once the charge went through. */
  function TryEvents(gateway: WompiGateway, c: PayContextWithTransaction, referenceUpdateFails: bool): seq<Effect> {
    [MerchantFetched(MerchantUrl(gateway.config))] +
    if !(gateway.api.merchantReply.MerchantData? && Truthy(gateway.config.integrityKey)) then []
    else
      [ChargePosted(PostedCharge(gateway, c))] +
      if ChargeSucceeds(gateway, referenceUpdateFails)
      then [TransactionUpdated(c.transaction.id, ReferencePatch(gateway.api.chargeReply.id))]
      else []
  }

  /** The requests and writes of the whole gateway stage: the try block, then the compensation
      unless it went through. */
  function StageEvents(gateway: WompiGateway, c: PayContextWithTransaction, referenceUpdateFails: bool): seq<Effect> {
    TryEvents(gateway, c, referenceUpdateFails) +
    if ChargeSucceeds(gateway, referenceUpdateFails) then [] else Compensation(c)
  }

  /** The transaction row the gateway stage leaves: the charge id stored on success, DECLINED otherwise. */
  function StageRow(gateway: WompiGateway, created: Transaction, referenceUpdateFails: bool): Transaction {
    if ChargeSucceeds(gateway, referenceUpdateFails) then created.(wompiReference := Some(gateway.api.chargeReply.id))
    else created.(status := DECLINED)
  }

  class PayUseCase {
    const productRepository: ProductStore
    const transactionRepository: TransactionStore
    const paymentGateway: WompiGateway

    ghost predicate Valid()
      reads productRepository, transactionRepository
    {
      && productRepository.Valid()
      && transactionRepository.Valid()
      && productRepository.journal == transactionRepository.journal == paymentGateway.api.journal
    }

    constructor (productRepository: ProductStore, transactionRepository: TransactionStore, paymentGateway: WompiGateway)
      ensures this.productRepository == productRepository && this.transactionRepository == transactionRepository
      ensures this.paymentGateway == paymentGateway
    {
      this.productRepository := productRepository;
      this.transactionRepository := transactionRepository;
      this.paymentGateway := paymentGateway;
    }

    /** getAcceptanceToken: the gateway's tokens as an ok Result; a gateway failure is not caught. */
    method GetAcceptanceToken() returns (r: Outcome<Result<AcceptanceToken, Error>>)
      modifies paymentGateway.api.journal
      ensures paymentGateway.api.journal.events
           == old(paymentGateway.api.journal.events) + [MerchantFetched(MerchantUrl(paymentGateway.config))]
      ensures paymentGateway.api.merchantReply.MerchantData? ==>
        r == Returned(Ok(AcceptanceToken(paymentGateway.api.merchantReply.acceptanceToken,
                                         paymentGateway.api.merchantReply.personalToken)))
      ensures paymentGateway.api.merchantReply.MerchantFailure? ==> r == Threw(paymentGateway.api.merchantReply.error)
    {
      var token := paymentGateway.GetAcceptanceToken();
      if token.Threw? {
        r := Threw(token.error);
      } else {
        r := Returned(Ok(token.value));
      }
    }

    /** The try/catch stage. `referenceUpdateFails` says whether the database rejects the write of
        the charge id; a rejected write changes nothing and throws into the catch block. */
    method ChargeStage(c: PayContextWithTransaction, referenceUpdateFails: bool) returns (r: Result<PayContextWithPayment, Error>)
      requires Valid()
      requires c.transaction.id in transactionRepository.rows
      modifies productRepository, transactionRepository, productRepository.journal
      ensures Valid()
      ensures r.Ok? <==> ChargeSucceeds(paymentGateway, referenceUpdateFails)
      ensures r.Ok? ==>
        && r.value == PayContextWithPayment(c.ctx, c.transaction,
             CardPaymentResult(paymentGateway.api.chargeReply.id, paymentGateway.api.chargeReply.status))
        && productRepository.rows == old(productRepository.rows)
        && transactionRepository.rows == old(transactionRepository.rows)[c.transaction.id :=
             old(transactionRepository.rows)[c.transaction.id].(wompiReference := Some(paymentGateway.api.chargeReply.id))]
      ensures r.Err? ==>
        && r == Err(ValidationError(PAYMENT_FAILED))
        && productRepository.rows == old(productRepository.rows)[c.ctx.product.id := c.ctx.product]
        && transactionRepository.rows == old(transactionRepository.rows)[c.transaction.id :=
             old(transactionRepository.rows)[c.transaction.id].(status := DECLINED)]
      ensures productRepository.journal.events
           == old(productRepository.journal.events) + StageEvents(paymentGateway, c, referenceUpdateFails)
    {
      ghost var events0 := productRepository.journal.events;
      var payment := TryBlock(c, referenceUpdateFails);
      if payment.Some? {
        r := Ok(PayContextWithPayment(c.ctx, c.transaction, payment.value));
      } else {
        ghost var events1 := productRepository.journal.events;
        CatchBlock(c);
        assert productRepository.journal.events == events1 + Compensation(c);
        r := Err(ValidationError(PAYMENT_FAILED));
      }
    }

    /** The try block: the tokens, the charge, then the write of the charge id. It writes no product. */
    method TryBlock(c: PayContextWithTransaction, referenceUpdateFails: bool) returns (payment: Option<CardPaymentResult>)
      requires Valid()
      requires c.transaction.id in transactionRepository.rows
      modifies transactionRepository, productRepository.journal
      ensures Valid()
      ensures payment.Some? <==> ChargeSucceeds(paymentGateway, referenceUpdateFails)
      ensures payment.Some? ==>
        && payment.value == CardPaymentResult(paymentGateway.api.chargeReply.id, paymentGateway.api.chargeReply.status)
        && transactionRepository.rows == old(transactionRepository.rows)[c.transaction.id :=
             old(transactionRepository.rows)[c.transaction.id].(wompiReference := Some(paymentGateway.api.chargeReply.id))]
      ensures payment.None? ==> transactionRepository.rows == old(transactionRepository.rows)
      ensures productRepository.journal.events
           == old(productRepository.journal.events) + TryEvents(paymentGateway, c, referenceUpdateFails)
    {
      var token := paymentGateway.GetAcceptanceToken();
      if token.Threw? {
        return None;
      }
      var paid := paymentGateway.CreateCardPayment(ChargeParams(c, token.value));
      if paid.Threw? || referenceUpdateFails {
        return None;
      }
      transactionRepository.Update(c.transaction.id, ReferencePatch(paid.value.id));
      payment := Some(paid.value);
    }

    /** The catch block: the product written back as it was read, the transaction DECLINED. */
    method CatchBlock(c: PayContextWithTransaction)
      requires Valid()
      requires c.transaction.id in transactionRepository.rows
      modifies productRepository, transactionRepository, productRepository.journal
      ensures Valid()
      ensures productRepository.rows == old(productRepository.rows)[c.ctx.product.id := c.ctx.product]
      ensures transactionRepository.rows == old(transactionRepository.rows)[c.transaction.id :=
                old(transactionRepository.rows)[c.transaction.id].(status := DECLINED)]
      ensures productRepository.journal.events == old(productRepository.journal.events) + Compensation(c)
    {
      var _ := productRepository.Save(c.ctx.product.(stock := c.ctx.product.stock));
      transactionRepository.Update(c.transaction.id, StatusPatch(DECLINED));
    }

    /** Stages two to four for an accepted order: reserve the stock, create the PENDING
        transaction, then run the gateway stage. */
    method ReserveAndCharge(ctx: PayContext, referenceUpdateFails: bool) returns (r: Result<PayContextWithPayment, Error>)
      requires Valid()
      modifies productRepository, transactionRepository, productRepository.journal
      ensures Valid()
      ensures var p := ctx.product;
        var reduced := p.(stock := p.stock - ctx.request.quantity);
        var created := Transaction(old(transactionRepository.NextId()), p.id, None, None, IntToDecimal(ctx.amount), PENDING,
                                   None, Some(ctx.request.quantity));
        var c := PayContextWithTransaction(ctx, created);
        var ok := ChargeSucceeds(paymentGateway, referenceUpdateFails);
        && created.id !in old(transactionRepository.rows)
        && (r.Ok? <==> ok)
        && (r.Ok? ==> r.value == PayContextWithPayment(ctx, created,
                        CardPaymentResult(paymentGateway.api.chargeReply.id, paymentGateway.api.chargeReply.status)))
        && (r.Err? ==> r == Err(ValidationError(PAYMENT_FAILED)))
        && productRepository.rows == old(productRepository.rows)[p.id := if ok then reduced else p]
        && transactionRepository.rows == old(transactionRepository.rows)[created.id := StageRow(paymentGateway, created, referenceUpdateFails)]
        && productRepository.journal.events == old(productRepository.journal.events)
             + [ProductSaved(reduced), TransactionCreated(created)] + StageEvents(paymentGateway, c, referenceUpdateFails)
    {
      ghost var products0, transactions0 := productRepository.rows, transactionRepository.rows;
      var c := Reserve(ctx);
      r := ChargeStage(c, referenceUpdateFails);
      assert transactionRepository.rows
          == transactions0[c.transaction.id := StageRow(paymentGateway, c.transaction, referenceUpdateFails)];
      assert productRepository.rows == products0[ctx.product.id := if r.Ok? then c.ctx.product.(stock := ctx.product.stock - ctx.request.quantity) else ctx.product];
    }

    /** Stages two and three: the stock is reserved, then the PENDING transaction is created. */
    method Reserve(ctx: PayContext) returns (c: PayContextWithTransaction)
      requires Valid()
      modifies productRepository, transactionRepository, productRepository.journal
      ensures Valid()
      ensures var p := ctx.product;
        var reduced := p.(stock := p.stock - ctx.request.quantity);
        var created := Transaction(old(transactionRepository.NextId()), p.id, None, None, IntToDecimal(ctx.amount), PENDING,
                                   None, Some(ctx.request.quantity));
        && c == PayContextWithTransaction(ctx, created)
        && created.id !in old(transactionRepository.rows)
        && productRepository.rows == old(productRepository.rows)[p.id := reduced]
        && transactionRepository.rows == old(transactionRepository.rows)[created.id := created]
        && productRepository.journal.events == old(productRepository.journal.events) + [ProductSaved(reduced), TransactionCreated(created)]
    {
      var _ := productRepository.Save(ctx.product.(stock := ctx.product.stock - ctx.request.quantity));
      var transaction := transactionRepository.Create(
        TransactionDraft(ctx.product.id, Some(ctx.request.quantity), IntToDecimal(ctx.amount), PENDING));
      c := PayContextWithTransaction(ctx, transaction);
    }

    /** execute. `referenceUpdateFails` stands for the database rejecting the write of the charge id. */
    method Execute(data: PayRequest, referenceUpdateFails: bool) returns (r: Result<PayResult, Error>)
      requires Valid()
      modifies productRepository, transactionRepository, productRepository.journal
      ensures Valid()
      // Stage one rejects: nothing is written and the gateway is not called.
      ensures old(productRepository.FindActiveById(data.productId)).None? ==>
        && r == Err(NotFoundError(PRODUCT_NOT_FOUND))
        && unchanged(productRepository, transactionRepository, productRepository.journal)
      ensures var found := old(productRepository.FindActiveById(data.productId));
        found.Some? && found.value.stock < data.quantity ==>
        && r == Err(ValidationError(NOT_ENOUGH_STOCK))
        && unchanged(productRepository, transactionRepository, productRepository.journal)
      // Accepted: one new PENDING transaction, then the gateway stage; a failure restores the stock.
      ensures var found := old(productRepository.FindActiveById(data.productId));
        found.Some? && data.quantity <= found.value.stock ==>
        var p := found.value;
        var amount := p.price * data.quantity;
        var reduced := p.(stock := p.stock - data.quantity);
        var created := Transaction(old(transactionRepository.NextId()), p.id, None, None, IntToDecimal(amount), PENDING,
                                   None, Some(data.quantity));
        var c := PayContextWithTransaction(PayContext(data, p, amount), created);
        var ok := ChargeSucceeds(paymentGateway, referenceUpdateFails);
        && created.id !in old(transactionRepository.rows)
        && (r.Ok? <==> ok)
        && (r.Ok? ==> r.value == PayResult(created.id, paymentGateway.api.chargeReply.id, paymentGateway.api.chargeReply.status))
        && (r.Err? ==> r == Err(ValidationError(PAYMENT_FAILED)))
        && productRepository.rows == (if ok then old(productRepository.rows)[p.id := reduced] else old(productRepository.rows))
        && transactionRepository.rows == old(transactionRepository.rows)[created.id := StageRow(paymentGateway, created, referenceUpdateFails)]
        && productRepository.journal.events == old(productRepository.journal.events)
             + [ProductSaved(reduced), TransactionCreated(created)] + StageEvents(paymentGateway, c, referenceUpdateFails)
    {
      var found := productRepository.FindActiveById(data.productId);
      var withProduct := AndThenAsync(Ok(data), (request: PayRequest) => ResolveProduct(found, request));
      var withPayment: Result<PayContextWithPayment, Error>;
      if withProduct.Ok? {
        withPayment := ReserveAndCharge(withProduct.value, referenceUpdateFails);
        RestoredRowsAreOld(old(productRepository.rows), withProduct.value.product);
      } else {
        withPayment := Err(withProduct.error);
      }
      r := Map(withPayment, Summary);
    }
  }

  /** Writing back the row that was read leaves the table as it was. */
  lemma RestoredRowsAreOld(rows: map<string, Product>, p: Product)
    requires p.id in rows && rows[p.id] == p
    ensures rows[p.id := p] == rows
  {
  }
}
