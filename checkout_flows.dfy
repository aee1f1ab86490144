/** The two backend paths that take stock for one order, run one after the other: the
    reservation inside PayUseCase.execute and the decrement of UpdateTransactionStatusUseCase
    when the same transaction is later moved into APPROVED. */
module CheckoutFlows {
  import opened Nullable
  import opened NumberText
  import opened Domain
  import opened Rop
  import opened Stores
  import opened Wompi
  import opened Pay
  import opened UpdateTransactionStatus

  /** A paid order approved afterwards has its quantity taken from stock twice. */
  method PayThenApprove(pay: PayUseCase, reconciler: UpdateTransactionStatusUseCase,
                        data: PayRequest, referenceUpdateFails: bool)
    returns (paid: Result<PayResult, Error>, approved: Option<Result<(), Error>>)
    requires pay.Valid() && reconciler.Valid()
    requires reconciler.productRepository == pay.productRepository
    requires reconciler.transactionRepository == pay.transactionRepository
    modifies pay.productRepository, pay.transactionRepository, pay.productRepository.journal
    ensures approved.Some? <==> paid.Ok?
    ensures paid.Ok? ==>
      && data.productId in old(pay.productRepository.rows) && data.productId in pay.productRepository.rows
      && var p := old(pay.productRepository.rows)[data.productId];
      && (approved.value.Ok? <==> 2 * data.quantity <= p.stock)
      && (approved.value.Err? ==> approved.value == Err(ValidationError(UpdateTransactionStatus.NOT_ENOUGH_STOCK)))
      && (approved.value.Ok? ==> pay.productRepository.rows[data.productId].stock == p.stock - 2 * data.quantity)
  {
    ghost var before := pay.productRepository.rows;
    paid := pay.Execute(data, referenceUpdateFails);
    if paid.Err? {
      return paid, None;
    }
    ghost var found := ActiveById(before, data.productId);
    assert found.Some?;
    var tid := paid.value.transactionId;
    // The paid transaction is still PENDING, a different status from APPROVED.
    assert pay.transactionRepository.rows[tid].status == PENDING;
    assert PENDING[0] != APPROVED[0];
    var outcome := reconciler.Execute(tid, APPROVED);
    approved := Some(outcome);
  }

  /** One checkout on a fresh backend: product p-1 at price 200 with 5 in stock, two units, and
      a gateway that accepts the charge as wompi-1, APPROVED. */
  method EndToEndScenario() returns (result: Result<PayResult, Error>, stock: int, row: Transaction)
    ensures result == Ok(PayResult("tx-0", "wompi-1", "APPROVED"))
    ensures stock == 3
    ensures row == Transaction("tx-0", "p-1", None, None, "400", PENDING, Some("wompi-1"), Some(2))
  {
    var journal := new Journal();
    var product := Product("p-1", "Product", "A product", 200, 5, true);
    var products := new ProductStore(map["p-1" := product], journal);
    var transactions := new TransactionStore(journal);
    var api := new WompiApi(MerchantData("acceptance", "personal"), Charged("wompi-1", "APPROVED"), journal);
    var config := WompiConfig(Some("https://sandbox.wompi.co/v1"), Some("pub_test"), Some("prv_test"), Some("integrity"));
    var gateway := new WompiGateway(config, (s: string) => s, api);
    var pay := new PayUseCase(products, transactions, gateway);
    assert TxId(0) == "tx-0" by {
      assert NatToDecimal(0) == "0";
    }
    assert IntToDecimal(400) == "400" by {
      assert NatToDecimal(4) == "4";
      assert NatToDecimal(40) == "40";
    }
    assert products.FindActiveById("p-1") == Some(product);
    assert ChargeSucceeds(gateway, false);
    result := pay.Execute(PayRequest("p-1", 2, "card", "user@test.com"), false);
    stock := products.rows["p-1"].stock;
    row := transactions.rows["tx-0"];
  }
}
