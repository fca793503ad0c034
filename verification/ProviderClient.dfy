/**
 * How one exchange with the provider becomes a result or a normalized error
 * (internal/providers/errors.go, internal/providers/yookassa/client.go and payments.go).
 */
module ProviderClient {
  import opened Basics
  import Amounts

  /** The provider's payment ids are texts compared only for equality: numbers, 0 being the empty text. */
  type ProviderId = nat

  const NO_ID: ProviderId := 0

  datatype ErrorCode = InvalidRequest | AuthFailed | Unavailable | Timeout | StateUnknown

  datatype ProviderError = ProviderError(code: ErrorCode, httpStatus: int, retryable: bool)

  datatype ProviderStatus = StPending | StSucceeded | StCanceled

  /** providers.Payment. */
  datatype ProviderPayment = ProviderPayment(id: ProviderId, status: ProviderStatus, checkoutUrl: string, paid: bool,
                                             amount: int, currency: string)

  /** The decoded JSON of a payment; confirmation is None when the answer carries no confirmation object. */
  datatype ApiPayment = ApiPayment(id: ProviderId, status: string, paid: bool, value: string, currency: string,
                                   confirmation: Option<string>)

  /** Everything the outside can do to one call. */
  datatype Exchange =
    | NotBuilt                                                    // the body or the request could not be built
    | NoAnswer(deadline: bool, canceled: bool, netTimeout: bool)  // the transport failed, with these marks on its error
    | Answer(httpStatus: int, bodyCode: string, payment: Option<ApiPayment>)

  predicate Success2xx(status: int) {
    200 <= status < 300
  }

  function NetworkError(deadline: bool, canceled: bool, netTimeout: bool): ProviderError {
    if deadline || canceled then ProviderError(Timeout, 0, true)
    else if netTimeout then ProviderError(Timeout, 0, true)
    else ProviderError(Unavailable, 0, true)
  }

  function StatusError(status: int, bodyCode: string): ProviderError {
    if status == 401 || status == 403 then ProviderError(AuthFailed, status, false)
    else if status == 429 then ProviderError(Unavailable, status, true)
    else if status >= 500 then ProviderError(Unavailable, status, true)
    else if bodyCode == "invalid_credentials" then ProviderError(AuthFailed, status, false)
    else ProviderError(InvalidRequest, status, false)
  }

  /** do, with a body to decode. */
  function Do(x: Exchange): Result<ApiPayment, ProviderError> {
    match x
    case NotBuilt => Err(ProviderError(InvalidRequest, 0, false))
    case NoAnswer(d, c, t) => Err(NetworkError(d, c, t))
    case Answer(status, bodyCode, payment) =>
      if Success2xx(status) then
        if payment.Some? then Ok(payment.value) else Err(ProviderError(StateUnknown, status, false))
      else Err(StatusError(status, bodyCode))
  }

  function MapStatus(status: string): Result<ProviderStatus, ProviderError> {
    if status == "pending" || status == "waiting_for_capture" then Ok(StPending)
    else if status == "succeeded" then Ok(StSucceeded)
    else if status == "canceled" then Ok(StCanceled)
    else Err(ProviderError(StateUnknown, 200, false))
  }

  function ToProviderPayment(p: ApiPayment): Result<ProviderPayment, ProviderError> {
    var status := MapStatus(p.status);
    if status.Err? then Err(status.error)
    else
      var amount := Amounts.ParseAmount(p.value);
      if amount.None? then Err(ProviderError(StateUnknown, 200, false))
      else Ok(ProviderPayment(p.id, status.value, if p.confirmation.Some? then p.confirmation.value else "",
                              p.paid, amount.value, p.currency))
  }

  /** Client.CreatePayment, given what happened to the exchange. */
  function CreateResult(x: Exchange): Result<ProviderPayment, ProviderError> {
    var answer := Do(x);
    if answer.Err? then Err(answer.error) else ToProviderPayment(answer.value)
  }

  /** Client.GetPayment: an empty id is refused before anything is sent. */
  function GetResult(id: ProviderId, x: Exchange): Result<ProviderPayment, ProviderError> {
    if id == NO_ID then Err(ProviderError(InvalidRequest, 0, false)) else CreateResult(x)
  }

  /** An error as the payment core receives it: from the adapter, or from anywhere else. */
  datatype CallError = FromProvider(error: ProviderError) | Foreign

  function CodeOf(e: CallError): ErrorCode {
    match e
    case FromProvider(error) => error.code
    case Foreign => StateUnknown
  }

  predicate Definitive(code: ErrorCode) {
    code == InvalidRequest || code == AuthFailed
  }

  /** The exchanges that prove the provider made no payment: nothing sent, or an answer outside 2xx, 429 and 5xx. */
  predicate Refusal(x: Exchange) {
    x.NotBuilt? || (x.Answer? && !Success2xx(x.httpStatus) && x.httpStatus < 500 && x.httpStatus != 429)
  }

  /**
   * Exactly the refusals are definitive: no timeout, transport error, 429, 5xx or unreadable 2xx answer
   * ever settles a payment, and every other answer outside 2xx does.
   */
  lemma DefinitiveIsRefusal(x: Exchange)
    ensures CreateResult(x).Err? && Definitive(CodeOf(FromProvider(CreateResult(x).error))) <==> Refusal(x)
    ensures Refusal(x) <==> x.NotBuilt? || (x.Answer? && (x.httpStatus < 200 || 300 <= x.httpStatus < 500) && x.httpStatus != 429)
    ensures !Definitive(CodeOf(Foreign))
  {
    hide Amounts.ParseAmount;
  }

  /** A failure is retryable exactly for lost exchanges, 429 and 5xx, and is then never definitive. */
  lemma RetryableIsTransient(x: Exchange)
    requires CreateResult(x).Err?
    ensures CreateResult(x).error.retryable
            <==> x.NoAnswer? || (x.Answer? && !Success2xx(x.httpStatus) && (x.httpStatus == 429 || x.httpStatus >= 500))
    ensures CreateResult(x).error.retryable ==> !Definitive(CreateResult(x).error.code)
    ensures CreateResult(x).error.code == StateUnknown
            <==> x.Answer? && Success2xx(x.httpStatus)
                 && !Carries(x)
  {
    hide Amounts.ParseAmount;
  }

  /** Which failure gets which code, over every exchange. */
  lemma CodesExactly(x: Exchange)
    requires CreateResult(x).Err?
    ensures var code := CreateResult(x).error.code;
            && (code == Timeout <==> x.NoAnswer? && (x.deadline || x.canceled || x.netTimeout))
            && (code == AuthFailed <==> Refusal(x) && x.Answer?
                                        && (x.httpStatus in {401, 403} || x.bodyCode == "invalid_credentials"))
            && (code == Unavailable <==> CreateResult(x).error.retryable && code != Timeout)
            && (code == InvalidRequest <==> Refusal(x) && code != AuthFailed)
    ensures CreateResult(x).error.httpStatus == if !x.Answer? then 0
                                                else if 200 <= x.httpStatus < 300 && x.payment.Some? then 200 else x.httpStatus
  {
    hide Amounts.ParseAmount;
  }

  /** A 2xx answer with a known status and a readable amount. */
  predicate Carries(x: Exchange) {
    && x.Answer? && 200 <= x.httpStatus < 300 && x.payment.Some?
    && x.payment.value.status in {"pending", "waiting_for_capture", "succeeded", "canceled"}
    && Amounts.ParseAmount(x.payment.value.value).Some?
  }

  /** A payment comes back exactly from such an answer, and is that answer's in every field. */
  lemma PaymentOnlyFromAnswer(x: Exchange)
    ensures CreateResult(x).Ok? <==> Carries(x)
    ensures Carries(x) ==>
              var p, a := CreateResult(x).value, x.payment.value;
              && p.id == a.id && p.paid == a.paid && p.currency == a.currency
              && Some(p.amount) == Amounts.ParseAmount(a.value)
              && (p.status == StSucceeded <==> a.status == "succeeded")
              && (p.status == StCanceled <==> a.status == "canceled")
              && p.checkoutUrl == if a.confirmation.Some? then a.confirmation.value else ""
  {
    hide Amounts.ParseAmount;
  }

  /** A read of an empty id fails whatever the provider does, so it can never move a payment. */
  lemma EmptyIdNeverRead(x: Exchange)
    ensures GetResult(NO_ID, x).Err?
  {
  }
}
