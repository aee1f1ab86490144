/** The Wompi payment-gateway adapter of
    backend/src/infrastructure/adapter/out/wompi/wompi.gateway.ts: the signature preimage, the
    shape of the charge request, the merchant URL and the message of a failed charge. The HTTP
    API itself is an oracle (WompiApi) with a fixed reply to each kind of request. */
module Wompi {
  import opened Nullable
  import opened NumberText
  import opened Domain
  import opened Stores

  /** The four settings the adapter reads; any of them may be unset. */
  datatype WompiConfig = WompiConfig(
    baseUrl: Option<string>,
    publicKey: Option<string>,
    privateKey: Option<string>,
    integrityKey: Option<string>)

  const CURRENCY: string := "COP"
  const MISSING_INTEGRITY_KEY: string := "WOMPI_INTEGRITY_KEY is not configured"
  const UNKNOWN_ERROR: string := "Unknown error from Wompi"
  const FAILURE_PREFIX: string := "Wompi transaction failed: "

  /** `${v}` of a setting: an unset one is written "undefined". */
  function Interpolated(v: Option<string>): string {
    if v.Some? then v.value else "undefined"
  }

  /** JavaScript truthiness of an optional string: present and not empty. */
  predicate Truthy(v: Option<string>) {
    v.Some? && v.value != ""
  }

  /** The string that is hashed: reference, amount in cents, currency, integrity key, in that order. */
  function SignaturePreimage(reference: string, amountInCents: int, currency: string, integrityKey: string): string {
    reference + IntToDecimal(amountInCents) + currency + integrityKey
  }

  /** generateSignature: the hex digest `hash` of the preimage, or the configuration error when
      the integrity key is unset or empty. */
  function GenerateSignature(hash: string -> string, amountInCents: int, currency: string,
                             reference: string, integrityKey: Option<string>): (r: Outcome<string>)
    ensures r.Returned? <==> Truthy(integrityKey)
    ensures r.Threw? ==> r.error == PlainError(MISSING_INTEGRITY_KEY)
    ensures r.Returned? ==> r.value == hash(SignaturePreimage(reference, amountInCents, currency, integrityKey.value))
  {
    if !Truthy(integrityKey) then Threw(PlainError(MISSING_INTEGRITY_KEY))
    else Returned(hash(SignaturePreimage(reference, amountInCents, currency, integrityKey.value)))
  }

  function MerchantUrl(config: WompiConfig): string {
    Interpolated(config.baseUrl) + "/merchants/" + Interpolated(config.publicKey)
  }

  /** The POST of a card charge: body fields copied from the params, currency COP, one
      installment, and the private key as a bearer token. */
  function ChargeRequestFor(config: WompiConfig, params: CardPaymentParams, signature: string): ChargeRequest {
    ChargeRequest(
      Interpolated(config.baseUrl) + "/transactions",
      ChargeBody(params.amountInCents, CURRENCY, params.email, PaymentMethod("CARD", params.cardToken, 1),
                 params.reference, params.acceptanceToken, params.acceptanceTokenPersonal, signature),
      "Bearer " + Interpolated(config.privateKey))
  }

  /** The params a charge body was built from. */
  function ParamsOfBody(body: ChargeBody): CardPaymentParams {
    CardPaymentParams(body.amountInCents, body.customerEmail, body.paymentMethod.token, body.reference,
                      body.acceptanceToken, body.acceptPersonalAuth)
  }

  /** The first present, non-empty candidate, else the fallback: a chain of `||`. */
  function FirstTruthy(candidates: seq<Option<string>>, fallback: string): (r: string)
    ensures (forall i | 0 <= i < |candidates| :: !Truthy(candidates[i])) ==> r == fallback
    ensures forall i | 0 <= i < |candidates| ::
      Truthy(candidates[i]) && (forall j | 0 <= j < i :: !Truthy(candidates[j])) ==> r == candidates[i].value
  {
    if |candidates| == 0 then fallback
    else if Truthy(candidates[0]) then candidates[0].value
    else FirstTruthy(candidates[1..], fallback)
  }

  /** data?.error?.message, data?.error?.reason and data?.message, in that order. */
  function MessageCandidates(data: Option<ErrorPayload>): (c: seq<Option<string>>)
    ensures |c| == 3
  {
    var detail := if data.Some? then data.value.error else None;
    [ if detail.Some? then detail.value.message else None,
      if detail.Some? then detail.value.reason else None,
      if data.Some? then data.value.message else None ]
  }

  function FailureMessage(data: Option<ErrorPayload>): string {
    FirstTruthy(MessageCandidates(data), UNKNOWN_ERROR)
  }

  /** `${status || 'N/A'}`: an absent or zero status reads N/A. */
  function StatusText(status: Option<int>): string {
    if status.Some? && status.value != 0 then IntToDecimal(status.value) else "N/A"
  }

  /** The message of the error thrown when the charge request fails. */
  function FailureText(status: Option<int>, data: Option<ErrorPayload>): string {
    FAILURE_PREFIX + StatusText(status) + " " + FailureMessage(data)
  }

  /** What the merchant endpoint answers: the two acceptance tokens, or a failure (network
      error, error status, or a body without the expected fields). */
  datatype MerchantReply = MerchantData(acceptanceToken: string, personalToken: string) | MerchantFailure(error: Error)

  /** What the transactions endpoint answers: the new charge, or a failure with the HTTP status
      and body when there was a response. */
  datatype ChargeReply = Charged(id: string, status: string) | ChargeRejected(httpStatus: Option<int>, data: Option<ErrorPayload>)

  /** The Wompi HTTP API: each request is recorded on the journal and gets the fixed reply. */
  class WompiApi {
    const merchantReply: MerchantReply
    const chargeReply: ChargeReply
    const journal: Journal

    constructor (merchantReply: MerchantReply, chargeReply: ChargeReply, journal: Journal)
      ensures this.merchantReply == merchantReply && this.chargeReply == chargeReply && this.journal == journal
    {
      this.merchantReply := merchantReply;
      this.chargeReply := chargeReply;
      this.journal := journal;
    }

    method Get(url: string) returns (reply: MerchantReply)
      modifies journal
      ensures reply == merchantReply
      ensures journal.events == old(journal.events) + [MerchantFetched(url)]
    {
      journal.events := journal.events + [MerchantFetched(url)];
      reply := merchantReply;
    }

    method Post(request: ChargeRequest) returns (reply: ChargeReply)
      modifies journal
      ensures reply == chargeReply
      ensures journal.events == old(journal.events) + [ChargePosted(request)]
    {
      journal.events := journal.events + [ChargePosted(request)];
      reply := chargeReply;
    }
  }

  /** How createCardPayment ends once the request was sent. */
  function AdapterChargeOutcome(reply: ChargeReply): (r: Outcome<CardPaymentResult>)
    ensures r.Returned? <==> reply.Charged?
    ensures reply.Charged? ==> r.value == CardPaymentResult(reply.id, reply.status)
    ensures reply.ChargeRejected? ==>
      r.error.PlainError? && |r.error.message| > |FAILURE_PREFIX| && r.error.message[..|FAILURE_PREFIX|] == FAILURE_PREFIX
  {
    match reply
    case Charged(id, status) => Returned(CardPaymentResult(id, status))
    case ChargeRejected(status, data) => Threw(PlainError(FailureText(status, data)))
  }

  function TokenOutcome(reply: MerchantReply): (r: Outcome<AcceptanceToken>)
    ensures r.Returned? <==> reply.MerchantData?
    ensures reply.MerchantData? ==> r.value == AcceptanceToken(reply.acceptanceToken, reply.personalToken)
    ensures reply.MerchantFailure? ==> r.error == reply.error
  {
    match reply
    case MerchantData(token, personal) => Returned(AcceptanceToken(token, personal))
    case MerchantFailure(e) => Threw(e)
  }

  /** WompiGatewayAdapter. `hash` is SHA-256 with hex output, left uninterpreted. */
  class WompiGateway {
    const config: WompiConfig
    const hash: string -> string
    const api: WompiApi

    constructor (config: WompiConfig, hash: string -> string, api: WompiApi)
      ensures this.config == config && this.hash == hash && this.api == api
    {
      this.config := config;
      this.hash := hash;
      this.api := api;
    }

    /** One GET to the merchant URL; the two tokens, or the failure rethrown. */
    method GetAcceptanceToken() returns (r: Outcome<AcceptanceToken>)
      modifies api.journal
      ensures api.journal.events == old(api.journal.events) + [MerchantFetched(MerchantUrl(config))]
      ensures r == TokenOutcome(api.merchantReply)
    {
      var reply := api.Get(MerchantUrl(config));
      r := TokenOutcome(reply);
    }

    /** The signature first (no request at all without an integrity key), then exactly one POST. */
    method CreateCardPayment(params: CardPaymentParams) returns (r: Outcome<CardPaymentResult>)
      modifies api.journal
      ensures var signature := GenerateSignature(hash, params.amountInCents, CURRENCY, params.reference, config.integrityKey);
        && (signature.Threw? ==>
              r == Threw(PlainError(MISSING_INTEGRITY_KEY)) && api.journal.events == old(api.journal.events))
        && (signature.Returned? ==>
              && api.journal.events == old(api.journal.events) + [ChargePosted(ChargeRequestFor(config, params, signature.value))]
              && r == AdapterChargeOutcome(api.chargeReply))
    {
      var signature := GenerateSignature(hash, params.amountInCents, CURRENCY, params.reference, config.integrityKey);
      if signature.Threw? {
        r := Threw(signature.error);
        return;
      }
      var reply := api.Post(ChargeRequestFor(config, params, signature.value));
      r := AdapterChargeOutcome(reply);
    }
  }

  // Properties of the wire format.

  /** The worked example: reference "ref-1", 5000 cents, COP, key "integrity". */
  lemma SignaturePreimageExample()
    ensures SignaturePreimage("ref-1", 5000, CURRENCY, "integrity") == "ref-15000COPintegrity"
  {
    assert NatToDecimal(5) == "5";
    assert NatToDecimal(50) == "50";
    assert NatToDecimal(500) == "500";
    assert NatToDecimal(5000) == "5000";
    assert IntToDecimal(5000) == "5000";
  }

  /** The preimage pins the amount: with reference, currency and key fixed, two amounts that give
      the same preimage are equal. */
  lemma SignaturePreimageBindsAmount(reference: string, a: int, b: int, currency: string, integrityKey: string)
    requires SignaturePreimage(reference, a, currency, integrityKey) == SignaturePreimage(reference, b, currency, integrityKey)
    ensures a == b
  {
    var da, db := IntToDecimal(a), IntToDecimal(b);
    var sa := reference + da + currency + integrityKey;
    var sb := reference + db + currency + integrityKey;
    assert |da| == |db|;
    assert sa[|reference|..|reference| + |da|] == da;
    assert sb[|reference|..|reference| + |db|] == db;
    IntToDecimalInjective(a, b);
  }

  /** ... and the reference, with amount, currency and key fixed. */
  lemma SignaturePreimageBindsReference(r1: string, r2: string, amountInCents: int, currency: string, integrityKey: string)
    requires SignaturePreimage(r1, amountInCents, currency, integrityKey) == SignaturePreimage(r2, amountInCents, currency, integrityKey)
    ensures r1 == r2
  {
    var tail := IntToDecimal(amountInCents) + currency + integrityKey;
    assert r1 + IntToDecimal(amountInCents) + currency + integrityKey == r1 + tail;
    assert r2 + IntToDecimal(amountInCents) + currency + integrityKey == r2 + tail;
    assert (r1 + tail)[..|r1|] == r1;
    assert (r2 + tail)[..|r2|] == r2;
  }

  /** The charge body carries the params unchanged, in COP, in one installment, with the
      signature it was given, and the request is authorised with the private key. */
  lemma ChargeRequestCarriesParams(config: WompiConfig, params: CardPaymentParams, signature: string)
    ensures var request := ChargeRequestFor(config, params, signature);
      && ParamsOfBody(request.body) == params
      && request.body.currency == CURRENCY
      && request.body.paymentMethod == PaymentMethod("CARD", params.cardToken, 1)
      && request.body.signature == signature
      && request.authorization == "Bearer " + Interpolated(config.privateKey)
      && request.url == Interpolated(config.baseUrl) + "/transactions"
  {
  }

  /** The failure message prefers error.message, then error.reason, then message, then the default. */
  lemma FailureMessageOrder(data: Option<ErrorPayload>)
    ensures var c := MessageCandidates(data);
      && (Truthy(c[0]) ==> FailureMessage(data) == c[0].value)
      && (!Truthy(c[0]) && Truthy(c[1]) ==> FailureMessage(data) == c[1].value)
      && (!Truthy(c[0]) && !Truthy(c[1]) && Truthy(c[2]) ==> FailureMessage(data) == c[2].value)
      && (!Truthy(c[0]) && !Truthy(c[1]) && !Truthy(c[2]) ==> FailureMessage(data) == UNKNOWN_ERROR)
      && FailureMessage(data) != ""
  {
  }

  lemma FailureTextWithoutResponse()
    ensures FailureText(None, None) == "Wompi transaction failed: N/A Unknown error from Wompi"
  {
    FailureMessageOrder(None);
  }

  lemma FailureTextWithReason()
    ensures FailureText(Some(422), Some(ErrorPayload(Some(ErrorDetail(None, Some("INVALID_CARD"))), Some("ignored"))))
         == "Wompi transaction failed: 422 INVALID_CARD"
  {
    var data := Some(ErrorPayload(Some(ErrorDetail(None, Some("INVALID_CARD"))), Some("ignored")));
    ReasonIsChosen(data);
    StatusText422();
  }

  lemma ReasonIsChosen(data: Option<ErrorPayload>)
    requires data == Some(ErrorPayload(Some(ErrorDetail(None, Some("INVALID_CARD"))), Some("ignored")))
    ensures FailureMessage(data) == "INVALID_CARD"
  {
    FailureMessageOrder(data);
  }

  lemma StatusText422()
    ensures StatusText(Some(422)) == "422"
  {
    assert NatToDecimal(4) == "4";
    assert NatToDecimal(42) == "42";
    assert NatToDecimal(422) == "422";
  }
}
