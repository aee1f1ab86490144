/** The `payment` Vuex module of frontend/src/store/modules/payment.ts: the checkout state,
    its single-field mutations, and the actions that commit them. */
module FrontendPayment {
  import opened Nullable

  const PAYMENT_FAILED: string := "Payment failed"

  /** The status literals 'pending', 'success' and 'failed'. */
  datatype TransactionStatus = Pending | Success | Failed

  datatype PaymentTransaction = PaymentTransaction(
    productId: string,
    quantity: int,
    email: string,
    subtotal: int,
    total: int,
    baseFee: int,
    deliveryFee: int,
    status: TransactionStatus,
    createdAt: string)

  datatype PaymentState = PaymentState(
    loading: bool,
    success: bool,
    error: Option<string>,
    email: string,
    quantity: int,
    cardToken: string,
    transaction: Option<PaymentTransaction>)

  /** What `pay` posts to /payments/pay when confirmPayment dispatches it. */
  datatype PayPayload = PayPayload(productId: string, quantity: int, email: string, cardToken: string)

  /** The argument of confirmPayment. */
  datatype ConfirmPayload = ConfirmPayload(
    productId: string,
    quantity: int,
    email: string,
    cardToken: string,
    subtotal: int,
    total: int,
    baseFee: int,
    deliveryFee: int)

  /** One commit: a mutation type with its payload. */
  datatype Mutation =
    | SetLoading(value: bool)
    | SetSuccess(value: bool)
    | SetError(error: Option<string>)
    | SetEmail(email: string)
    | SetQuantity(quantity: int)
    | SetCardToken(token: string)
    | SetTransaction(transaction: Option<PaymentTransaction>)
    | SetTransactionStatus(status: TransactionStatus)

  function InitialState(): PaymentState {
    PaymentState(false, false, None, "", 1, "", None)
  }

  /** The mutations table. */
  function Apply(s: PaymentState, m: Mutation): PaymentState {
    match m
    case SetLoading(v) => s.(loading := v)
    case SetSuccess(v) => s.(success := v)
    case SetError(e) => s.(error := e)
    case SetEmail(e) => s.(email := e)
    case SetQuantity(q) => s.(quantity := q)
    case SetCardToken(t) => s.(cardToken := t)
    case SetTransaction(t) => s.(transaction := t)
    case SetTransactionStatus(status) =>
      if s.transaction.None? then s else s.(transaction := Some(s.transaction.value.(status := status)))
  }

  /** A sequence of commits, oldest first. */
  function ApplyAll(s: PaymentState, ms: seq<Mutation>): PaymentState
    decreases |ms|
  {
    if ms == [] then s else ApplyAll(Apply(s, ms[0]), ms[1..])
  }

  lemma {:induction false} ApplyAllAppend(s: PaymentState, a: seq<Mutation>, b: seq<Mutation>)
    ensures ApplyAll(s, a + b) == ApplyAll(ApplyAll(s, a), b)
    decreases |a|
  {
    if a == [] {
      assert a + b == b;
    } else {
      assert (a + b)[1..] == a[1..] + b;
      ApplyAllAppend(Apply(s, a[0]), a[1..], b);
    }
  }

  /** One more commit at the end is one more mutation applied. */
  lemma ApplyAllPrefix(s: PaymentState, ms: seq<Mutation>, k: nat)
    requires k < |ms|
    ensures ApplyAll(s, ms[..k + 1]) == Apply(ApplyAll(s, ms[..k]), ms[k])
  {
    assert ms[..k + 1] == ms[..k] + [ms[k]];
    ApplyAllAppend(s, ms[..k], [ms[k]]);
    assert [ms[k]][1..] == [];
  }

  /** Every mutation but SET_TRANSACTION_STATUS writes its one field and nothing else; that one
      leaves a null transaction alone. */
  lemma MutationTouchesOneField(s: PaymentState, m: Mutation)
    ensures var t := Apply(s, m);
      && (!m.SetLoading? ==> t.loading == s.loading)
      && (!m.SetSuccess? ==> t.success == s.success)
      && (!m.SetError? ==> t.error == s.error)
      && (!m.SetEmail? ==> t.email == s.email)
      && (!m.SetQuantity? ==> t.quantity == s.quantity)
      && (!m.SetCardToken? ==> t.cardToken == s.cardToken)
      && (!m.SetTransaction? && !m.SetTransactionStatus? ==> t.transaction == s.transaction)
      && (m.SetTransactionStatus? && s.transaction.None? ==> t == s)
  {
  }

  /** The commits of `pay`: the reset, then success or failure, then loading off (the finally). */
  function PayCommits(requestSucceeds: bool): seq<Mutation> {
    [SetLoading(true), SetError(None), SetSuccess(false)] +
    (if requestSucceeds then [SetSuccess(true), SetTransactionStatus(Success)]
     else [SetError(Some(PAYMENT_FAILED)), SetTransactionStatus(Failed)]) +
    [SetLoading(false)]
  }

  /** The commits of pay, replayed one at a time. */
  lemma {:induction false} PayUnrolled(s: PaymentState, requestSucceeds: bool)
    ensures var ms := PayCommits(requestSucceeds);
      && |ms| == 6
      && ApplyAll(s, ms) == Apply(Apply(Apply(Apply(Apply(Apply(s, ms[0]), ms[1]), ms[2]), ms[3]), ms[4]), ms[5])
  {
    var ms := PayCommits(requestSucceeds);
    assert |ms| == 6;
    assert ms[..0] == [] && ms[..6] == ms;
    ApplyAllPrefix(s, ms, 0);
    ApplyAllPrefix(s, ms, 1);
    ApplyAllPrefix(s, ms, 2);
    ApplyAllPrefix(s, ms, 3);
    ApplyAllPrefix(s, ms, 4);
    ApplyAllPrefix(s, ms, 5);
  }

  /** After pay, loading is off, success and error tell how the request went, the stored
      transaction (if any) carries the matching status, and the form fields are untouched. */
  lemma {:induction false} PayOutcome(s: PaymentState, requestSucceeds: bool)
    ensures var t := ApplyAll(s, PayCommits(requestSucceeds));
      && !t.loading
      && t.success == requestSucceeds
      && t.error == (if requestSucceeds then None else Some(PAYMENT_FAILED))
      && t.email == s.email && t.quantity == s.quantity && t.cardToken == s.cardToken
      && t.transaction == (if s.transaction.None? then None
                           else Some(s.transaction.value.(status := if requestSucceeds then Success else Failed)))
  {
    PayUnrolled(s, requestSucceeds);
  }

  class PaymentStore {
    var loading: bool
    var success: bool
    var error: Option<string>
    var email: string
    var quantity: int
    var cardToken: string
    var transaction: Option<PaymentTransaction>
    /** Every commit so far, and every body posted to /payments/pay. */
    ghost var commits: seq<Mutation>
    ghost var requests: seq<PayPayload>

    function State(): PaymentState
      reads this
    {
      PaymentState(loading, success, error, email, quantity, cardToken, transaction)
    }

    constructor ()
      ensures State() == InitialState() && commits == [] && requests == []
    {
      loading, success, error := false, false, None;
      email, quantity, cardToken := "", 1, "";
      transaction := None;
      commits, requests := [], [];
    }

    /** commit: runs one mutation and records it. */
    method Commit(m: Mutation)
      modifies this
      ensures State() == Apply(old(State()), m)
      ensures commits == old(commits) + [m] && requests == old(requests)
    {
      match m {
        case SetLoading(v) => loading := v;
        case SetSuccess(v) => success := v;
        case SetError(e) => error := e;
        case SetEmail(e) => email := e;
        case SetQuantity(q) => quantity := q;
        case SetCardToken(t) => cardToken := t;
        case SetTransaction(t) => transaction := t;
        case SetTransactionStatus(status) =>
          if transaction.Some? {
            transaction := Some(transaction.value.(status := status));
          }
      }
      commits := commits + [m];
    }

    method SetEmailAction(email: string)
      modifies this
      ensures State() == old(State()).(email := email)
      ensures commits == old(commits) + [SetEmail(email)] && requests == old(requests)
    {
      Commit(SetEmail(email));
    }

    method SetQuantityAction(quantity: int)
      modifies this
      ensures State() == old(State()).(quantity := quantity)
      ensures commits == old(commits) + [SetQuantity(quantity)] && requests == old(requests)
    {
      Commit(SetQuantity(quantity));
    }

    method SetCardTokenAction(token: string)
      modifies this
      ensures State() == old(State()).(cardToken := token)
      ensures commits == old(commits) + [SetCardToken(token)] && requests == old(requests)
    {
      Commit(SetCardToken(token));
    }

    method SetTransactionAction(transaction: Option<PaymentTransaction>)
      modifies this
      ensures State() == old(State()).(transaction := transaction)
      ensures commits == old(commits) + [SetTransaction(transaction)] && requests == old(requests)
    {
      Commit(SetTransaction(transaction));
    }

    /** pay: one POST; `requestSucceeds` says whether it resolved. */
    method Pay(payload: PayPayload, requestSucceeds: bool)
      modifies this
      ensures commits == old(commits) + PayCommits(requestSucceeds)
      ensures requests == old(requests) + [payload]
      ensures State() == ApplyAll(old(State()), PayCommits(requestSucceeds))
      ensures !loading && success == requestSucceeds
      ensures error == if requestSucceeds then None else Some(PAYMENT_FAILED)
      ensures email == old(email) && quantity == old(quantity) && cardToken == old(cardToken)
      ensures transaction == if old(transaction).None? then None
                             else Some(old(transaction).value.(status := if requestSucceeds then Success else Failed))
    {
      ghost var s0 := State();
      Commit(SetLoading(true));
      Commit(SetError(None));
      Commit(SetSuccess(false));
      requests := requests + [payload];
      if requestSucceeds {
        Commit(SetSuccess(true));
        Commit(SetTransactionStatus(Success));
      } else {
        Commit(SetError(Some(PAYMENT_FAILED)));
        Commit(SetTransactionStatus(Failed));
      }
      Commit(SetLoading(false));
      PayUnrolled(s0, requestSucceeds);
      assert State() == ApplyAll(s0, PayCommits(requestSucceeds));
      PayOutcome(s0, requestSucceeds);
    }

    /** confirmPayment: stores the new transaction as pending, then pays with the four fields
        the backend needs. `createdAt` stands for the ISO text of the current time. */
    method ConfirmPayment(payload: ConfirmPayload, createdAt: string, requestSucceeds: bool)
      modifies this
      ensures var tx := PaymentTransaction(payload.productId, payload.quantity, payload.email, payload.subtotal,
                                           payload.total, payload.baseFee, payload.deliveryFee, Pending, createdAt);
        && commits == old(commits) + [SetTransaction(Some(tx))] + PayCommits(requestSucceeds)
        && State() == ApplyAll(old(State()), [SetTransaction(Some(tx))] + PayCommits(requestSucceeds))
        && transaction == Some(tx.(status := if requestSucceeds then Success else Failed))
      ensures requests == old(requests) + [PayPayload(payload.productId, payload.quantity, payload.email, payload.cardToken)]
      ensures !loading && success == requestSucceeds
      ensures error == if requestSucceeds then None else Some(PAYMENT_FAILED)
      ensures email == old(email) && quantity == old(quantity) && cardToken == old(cardToken)
    {
      ghost var s0 := State();
      var tx := PaymentTransaction(payload.productId, payload.quantity, payload.email, payload.subtotal,
                                   payload.total, payload.baseFee, payload.deliveryFee, Pending, createdAt);
      SetTransactionAction(Some(tx));
      Pay(PayPayload(payload.productId, payload.quantity, payload.email, payload.cardToken), requestSucceeds);
      ApplyAllAppend(s0, [SetTransaction(Some(tx))], PayCommits(requestSucceeds));
    }
  }
}
