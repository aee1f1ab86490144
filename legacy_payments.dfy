/** The older checkout of backend/src/modules/payments/payments.service.ts: its own signature,
    acceptance-token fetch and charge, and a `pay` whose catch block adds the quantity back and
    marks the transaction failed. */
module LegacyPayments {
  import opened Nullable
  import opened NumberText
  import opened Domain
  import opened Stores
  import opened Wompi
  import LegacyProducts
  import LegacyTransactions

  const PRODUCT_NOT_FOUND: string := "Product not found"
  const NOT_ENOUGH_STOCK: string := "Not enough stock"

  /** The legacy preimage: amount, currency, reference, key, in that order. */
  function LegacySignaturePreimage(amountInCents: int, currency: string, reference: string, integrityKey: string): string {
    IntToDecimal(amountInCents) + currency + reference + integrityKey
  }

  /** generateSignature of the legacy service: the same key check as the adapter, another order. */
  function LegacySignature(hash: string -> string, amountInCents: int, currency: string, reference: string,
                           integrityKey: Option<string>): (r: Outcome<string>)
    ensures r.Returned? <==> Truthy(integrityKey)
    ensures r.Threw? ==> r.error == PlainError(MISSING_INTEGRITY_KEY)
    ensures r.Returned? ==> r.value == hash(LegacySignaturePreimage(amountInCents, currency, reference, integrityKey.value))
  {
    if !Truthy(integrityKey) then Threw(PlainError(MISSING_INTEGRITY_KEY))
    else Returned(hash(LegacySignaturePreimage(amountInCents, currency, reference, integrityKey.value)))
  }

  lemma LegacySignaturePreimageExample()
    ensures LegacySignaturePreimage(5000, CURRENCY, "ref-1", "integrity") == "5000COPref-1integrity"
  {
    assert NatToDecimal(5) == "5";
    assert NatToDecimal(50) == "50";
    assert NatToDecimal(500) == "500";
    assert NatToDecimal(5000) == "5000";
    assert IntToDecimal(5000) == "5000";
  }

  /** The two preimage orders disagree: for a non-negative amount and a reference that does not
      start with a digit, the legacy preimage starts with a digit and the adapter's does not. */
  lemma PreimageOrdersDiffer(reference: string, amountInCents: int, currency: string, integrityKey: string)
    requires amountInCents >= 0 && |reference| > 0 && !IsDigit(reference[0])
    ensures LegacySignaturePreimage(amountInCents, currency, reference, integrityKey)
         != SignaturePreimage(reference, amountInCents, currency, integrityKey)
  {
    var legacy := LegacySignaturePreimage(amountInCents, currency, reference, integrityKey);
    var adapter := SignaturePreimage(reference, amountInCents, currency, integrityKey);
    assert legacy[0] == IntToDecimal(amountInCents)[0];
    assert adapter[0] == reference[0];
  }

  /** How the legacy createWompiPayment ends once posted: axios rejects with the raw failure. */
  function LegacyChargeOutcome(reply: ChargeReply): (r: Outcome<CardPaymentResult>)
    ensures r.Returned? <==> reply.Charged?
    ensures reply.Charged? ==> r.value == CardPaymentResult(reply.id, reply.status)
    ensures reply.ChargeRejected? ==> r.error == HttpFailure(reply.httpStatus, reply.data)
  {
    match reply
    case Charged(id, status) => Returned(CardPaymentResult(id, status))
    case ChargeRejected(status, data) => Threw(HttpFailure(status, data))
  }

  /** The charge for a transaction: amount in cents and the transaction id as the reference. */
  function LegacyChargeParams(data: PayRequest, amount: int, transactionId: string, token: AcceptanceToken): (params: CardPaymentParams)
    ensures params.amountInCents == amount * 100 && params.reference == transactionId
  {
    CardPaymentParams(amount * 100, data.email, data.cardToken, transactionId, token.acceptanceToken, token.acceptanceTokenPersonal)
  }

  class PaymentsService {
    const config: WompiConfig
    const hash: string -> string
    const api: WompiApi
    const productsService: LegacyProducts.ProductsService
    const transactionsService: LegacyTransactions.TransactionsService

    ghost predicate Valid()
      reads productsService.productRepository, transactionsService.productRepository, transactionsService.transactionRepository
    {
      && transactionsService.Valid()
      && productsService.productRepository == transactionsService.productRepository
      && transactionsService.productRepository.journal == api.journal
    }

    constructor (config: WompiConfig, hash: string -> string, api: WompiApi,
                 productsService: LegacyProducts.ProductsService, transactionsService: LegacyTransactions.TransactionsService)
      ensures this.config == config && this.hash == hash && this.api == api
      ensures this.productsService == productsService && this.transactionsService == transactionsService
    {
      this.config := config;
      this.hash := hash;
      this.api := api;
      this.productsService := productsService;
      this.transactionsService := transactionsService;
    }

    /** getAcceptanceToken: one GET; its failure propagates as it was raised. */
    method GetAcceptanceToken() returns (r: Outcome<AcceptanceToken>)
      modifies api.journal
      ensures api.journal.events == old(api.journal.events) + [MerchantFetched(MerchantUrl(config))]
      ensures r == TokenOutcome(api.merchantReply)
    {
      var reply := api.Get(MerchantUrl(config));
      r := TokenOutcome(reply);
    }

    /** createWompiPayment: no request without an integrity key, otherwise exactly one POST. */
    method CreateWompiPayment(params: CardPaymentParams) returns (r: Outcome<CardPaymentResult>)
      modifies api.journal
      ensures var signature := LegacySignature(hash, params.amountInCents, CURRENCY, params.reference, config.integrityKey);
        && (signature.Threw? ==> r == Threw(PlainError(MISSING_INTEGRITY_KEY)) && api.journal.events == old(api.journal.events))
        && (signature.Returned? ==>
              && api.journal.events == old(api.journal.events) + [ChargePosted(ChargeRequestFor(config, params, signature.value))]
              && r == LegacyChargeOutcome(api.chargeReply))
    {
      var signature := LegacySignature(hash, params.amountInCents, CURRENCY, params.reference, config.integrityKey);
      if signature.Threw? {
        r := Threw(signature.error);
        return;
      }
      var reply := api.Post(ChargeRequestFor(config, params, signature.value));
      r := LegacyChargeOutcome(reply);
    }

    /** What the try block throws, if anything: the first of the token fetch, the integrity key,
        the charge and the reference write to fail. */
    function TryError(referenceUpdateError: Option<Error>): (e: Option<Error>)
      ensures e.None? <==> api.merchantReply.MerchantData? && Truthy(config.integrityKey) && api.chargeReply.Charged?
                           && referenceUpdateError.None?
    {
      if api.merchantReply.MerchantFailure? then Some(api.merchantReply.error)
      else if !Truthy(config.integrityKey) then Some(PlainError(MISSING_INTEGRITY_KEY))
      else if api.chargeReply.ChargeRejected? then Some(HttpFailure(api.chargeReply.httpStatus, api.chargeReply.data))
      else referenceUpdateError
    }

    /** The charge the try block posts, once tokens were fetched and the key is set. */
    function PostedCharge(data: PayRequest, amount: int, transactionId: string): ChargeRequest
      requires api.merchantReply.MerchantData? && Truthy(config.integrityKey)
    {
      var params := LegacyChargeParams(data, amount, transactionId,
                                       AcceptanceToken(api.merchantReply.acceptanceToken, api.merchantReply.personalToken));
      ChargeRequestFor(config, params,
        hash(LegacySignaturePreimage(params.amountInCents, CURRENCY, params.reference, config.integrityKey.value)))
    }

    /** The requests and writes of the try block, in order: the merchant fetch; the charge once
        tokens and key are there; the write of the charge id once nothing failed. */
    function TryEvents(data: PayRequest, amount: int, transactionId: string, referenceUpdateError: Option<Error>): seq<Effect> {
      [MerchantFetched(MerchantUrl(config))] +
      if !(api.merchantReply.MerchantData? && Truthy(config.integrityKey)) then []
      else
        [ChargePosted(PostedCharge(data, amount, transactionId))] +
        if TryError(referenceUpdateError).None? then [TransactionUpdated(transactionId, ReferencePatch(api.chargeReply.id))]
        else []
    }

    /** The try block and then, on a failure, the catch: the product saved with the quantity added
        back, which is `p` again, and the transaction DECLINED. */
    function StageEvents(data: PayRequest, p: Product, amount: int, transactionId: string,
                         referenceUpdateError: Option<Error>): seq<Effect> {
      TryEvents(data, amount, transactionId, referenceUpdateError) +
      if TryError(referenceUpdateError).None? then []
      else [ProductSaved(p), TransactionUpdated(transactionId, StatusPatch(DECLINED))]
    }

    /** The transaction row pay leaves: the charge id stored on success, DECLINED otherwise. */
    function StageRow(created: Transaction, referenceUpdateError: Option<Error>): Transaction {
      if TryError(referenceUpdateError).None? then created.(wompiReference := Some(api.chargeReply.id))
      else created.(status := DECLINED)
    }

    /** The try block and its catch, for a product `p` whose stock was already lowered by the
        quantity and a pending transaction `t`. `referenceUpdateError` is the error the database
        raises on the write of the charge id, if it does; that write then changes nothing. */
    method TryCharge(data: PayRequest, p: Product, amount: int, t: Transaction, referenceUpdateError: Option<Error>)
      returns (r: Outcome<PayResult>)
      requires Valid()
      requires t.id in transactionsService.transactionRepository.rows
      requires p.id in productsService.productRepository.rows && productsService.productRepository.rows[p.id].active
      requires productsService.productRepository.rows[p.id] == p.(stock := p.stock - data.quantity)
      modifies productsService.productRepository, transactionsService.transactionRepository, api.journal
      ensures Valid()
      ensures var e := TryError(referenceUpdateError);
        var rows := old(transactionsService.transactionRepository.rows);
        && (e.None? ==>
              && r == Returned(PayResult(t.id, api.chargeReply.id, api.chargeReply.status))
              && productsService.productRepository.rows == old(productsService.productRepository.rows)
              && transactionsService.transactionRepository.rows
                 == rows[t.id := rows[t.id].(wompiReference := Some(api.chargeReply.id))])
        && (e.Some? ==>
              && r == Threw(BadRequestFrom(e.value))
              && productsService.productRepository.rows == old(productsService.productRepository.rows)[p.id := p]
              && transactionsService.transactionRepository.rows == rows[t.id := rows[t.id].(status := DECLINED)])
      ensures api.journal.events == old(api.journal.events) + StageEvents(data, p, amount, t.id, referenceUpdateError)
    {
      var payment := TryBlock(data, amount, t, referenceUpdateError);
      if payment.Returned? {
        return Returned(PayResult(t.id, payment.value.id, payment.value.status));
      }
      ghost var events1 := api.journal.events;
      CatchBlock(p, data.quantity, t);
      assert api.journal.events == events1 + [ProductSaved(p), TransactionUpdated(t.id, StatusPatch(DECLINED))];
      r := Threw(BadRequestFrom(payment.error));
    }

    /** The try block: the tokens, the charge, then the write of the charge id; the first failure
        is thrown. It writes no product. */
    method TryBlock(data: PayRequest, amount: int, t: Transaction, referenceUpdateError: Option<Error>)
      returns (payment: Outcome<CardPaymentResult>)
      requires Valid()
      requires t.id in transactionsService.transactionRepository.rows
      modifies transactionsService.transactionRepository, api.journal
      ensures Valid()
      ensures var e := TryError(referenceUpdateError);
        var rows := old(transactionsService.transactionRepository.rows);
        && (e.None? ==>
              && payment == Returned(CardPaymentResult(api.chargeReply.id, api.chargeReply.status))
              && transactionsService.transactionRepository.rows
                 == rows[t.id := rows[t.id].(wompiReference := Some(api.chargeReply.id))])
        && (e.Some? ==> payment == Threw(e.value) && transactionsService.transactionRepository.rows == rows)
      ensures api.journal.events == old(api.journal.events) + TryEvents(data, amount, t.id, referenceUpdateError)
    {
      var token := GetAcceptanceToken();
      if token.Threw? {
        return Threw(token.error);
      }
      payment := CreateWompiPayment(LegacyChargeParams(data, amount, t.id, token.value));
      if payment.Threw? {
        return;
      }
      if referenceUpdateError.Some? {
        return Threw(referenceUpdateError.value);
      }
      transactionsService.UpdateWompiReference(t.id, payment.value.id);
    }

    /** The catch block: increaseStock puts the quantity back, then the transaction is marked failed. */
    method CatchBlock(p: Product, quantity: int, t: Transaction)
      requires Valid()
      requires t.id in transactionsService.transactionRepository.rows
      requires p.id in productsService.productRepository.rows && productsService.productRepository.rows[p.id].active
      requires productsService.productRepository.rows[p.id] == p.(stock := p.stock - quantity)
      modifies productsService.productRepository, transactionsService.transactionRepository, api.journal
      ensures Valid()
      ensures productsService.productRepository.rows == old(productsService.productRepository.rows)[p.id := p]
      ensures var rows := old(transactionsService.transactionRepository.rows);
        transactionsService.transactionRepository.rows == rows[t.id := rows[t.id].(status := DECLINED)]
      ensures api.journal.events == old(api.journal.events) + [ProductSaved(p), TransactionUpdated(t.id, StatusPatch(DECLINED))]
    {
      var restored := productsService.IncreaseStock(p.id, quantity);
      assert restored.Returned? && restored.value == p;
      transactionsService.MarkAsFailed(t.id);
    }

    /** pay. */
    method Pay(data: PayRequest, referenceUpdateError: Option<Error>) returns (r: Outcome<PayResult>)
      requires Valid()
      modifies productsService.productRepository, transactionsService.transactionRepository, api.journal
      ensures Valid()
      ensures old(productsService.FindOne(data.productId)).None? ==>
        && r == Threw(NotFoundException(PRODUCT_NOT_FOUND))
        && unchanged(productsService.productRepository, transactionsService.transactionRepository, api.journal)
      ensures var found := old(productsService.FindOne(data.productId));
        found.Some? && found.value.stock < data.quantity ==>
        && r == Threw(BadRequestException(NOT_ENOUGH_STOCK))
        && unchanged(productsService.productRepository, transactionsService.transactionRepository, api.journal)
      ensures var found := old(productsService.FindOne(data.productId));
        found.Some? && data.quantity <= found.value.stock ==>
        var p := found.value;
        var amount := p.price * data.quantity;
        var reduced := p.(stock := p.stock - data.quantity);
        var created := Transaction(old(transactionsService.transactionRepository.NextId()), p.id, None, None,
                                   IntToDecimal(amount), PENDING, None, Some(data.quantity));
        var e := TryError(referenceUpdateError);
        && created.id !in old(transactionsService.transactionRepository.rows)
        && (e.None? ==> r == Returned(PayResult(created.id, api.chargeReply.id, api.chargeReply.status)))
        && (e.Some? ==> r == Threw(BadRequestFrom(e.value)))
        && productsService.productRepository.rows
           == (if e.None? then old(productsService.productRepository.rows)[p.id := reduced]
               else old(productsService.productRepository.rows))
        && transactionsService.transactionRepository.rows
           == old(transactionsService.transactionRepository.rows)[created.id := StageRow(created, referenceUpdateError)]
        && api.journal.events == old(api.journal.events) + [ProductSaved(reduced), TransactionCreated(created)]
           + StageEvents(data, p, amount, created.id, referenceUpdateError)
    {
      var product := productsService.FindOne(data.productId);
      if product.None? {
        return Threw(NotFoundException(PRODUCT_NOT_FOUND));
      }
      var p := product.value;
      if p.stock < data.quantity {
        return Threw(BadRequestException(NOT_ENOUGH_STOCK));
      }
      r := ReserveAndCharge(data, p, referenceUpdateError);
    }

    /** The rest of pay once the product passed: decrease, create pending, then the try block. */
    method ReserveAndCharge(data: PayRequest, p: Product, referenceUpdateError: Option<Error>) returns (r: Outcome<PayResult>)
      requires Valid()
      requires productsService.FindOne(p.id) == Some(p)
      modifies productsService.productRepository, transactionsService.transactionRepository, api.journal
      ensures Valid()
      ensures var amount := p.price * data.quantity;
        var reduced := p.(stock := p.stock - data.quantity);
        var created := Transaction(old(transactionsService.transactionRepository.NextId()), p.id, None, None,
                                   IntToDecimal(amount), PENDING, None, Some(data.quantity));
        var e := TryError(referenceUpdateError);
        && created.id !in old(transactionsService.transactionRepository.rows)
        && (e.None? ==> r == Returned(PayResult(created.id, api.chargeReply.id, api.chargeReply.status)))
        && (e.Some? ==> r == Threw(BadRequestFrom(e.value)))
        && productsService.productRepository.rows
           == (if e.None? then old(productsService.productRepository.rows)[p.id := reduced]
               else old(productsService.productRepository.rows))
        && transactionsService.transactionRepository.rows
           == old(transactionsService.transactionRepository.rows)[created.id := StageRow(created, referenceUpdateError)]
        && api.journal.events == old(api.journal.events) + [ProductSaved(reduced), TransactionCreated(created)]
           + StageEvents(data, p, amount, created.id, referenceUpdateError)
    {
      var amount := p.price * data.quantity;
      var transaction := Reserve(data, p, amount);
      r := TryCharge(data, p, amount, transaction, referenceUpdateError);
      assert old(productsService.productRepository.rows)[p.id := p] == old(productsService.productRepository.rows);
    }

    /** Steps 1 and 2 of pay: decreaseStock, then createPending. */
    method Reserve(data: PayRequest, p: Product, amount: int) returns (t: Transaction)
      requires Valid()
      requires productsService.FindOne(p.id) == Some(p)
      modifies productsService.productRepository, transactionsService.transactionRepository, api.journal
      ensures Valid()
      ensures var reduced := p.(stock := p.stock - data.quantity);
        && t == Transaction(old(transactionsService.transactionRepository.NextId()), p.id, None, None,
                            IntToDecimal(amount), PENDING, None, Some(data.quantity))
        && t.id !in old(transactionsService.transactionRepository.rows)
        && productsService.productRepository.rows == old(productsService.productRepository.rows)[p.id := reduced]
        && transactionsService.transactionRepository.rows == old(transactionsService.transactionRepository.rows)[t.id := t]
        && api.journal.events == old(api.journal.events) + [ProductSaved(reduced), TransactionCreated(t)]
    {
      var lowered := productsService.DecreaseStock(p.id, data.quantity);
      t := transactionsService.CreatePending(p.id, data.quantity, amount);
    }
  }
}
