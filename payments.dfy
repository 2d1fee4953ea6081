// The transfer executor and address resolver (src/utils/payments.ts):
// building ERC-20 `transfer` calls on the USDC token, wrapping them in a
// `wallet_sendCalls` request (EIP-5792), and the retry rule shared by single
// and batched submissions.
module Payments {
  import opened Types
  import opened Constants
  import opened Text

  /** The `transfer(to, amount)` call data of EIP-20, amount in base units. */
  datatype TransferData = Transfer(recipient: string, units: nat)

  /** One call of a `wallet_sendCalls` batch: target contract, native value, call data. */
  datatype Call = Call(to: string, value: string, data: TransferData)

  /** One entry of a batch: who is paid and how much. */
  datatype Recipient = Recipient(address: string, amount: UsdcAmount)

  /** The optional paymaster capability; its content is passed through unexamined. */
  datatype PaymasterService = PaymasterService(url: string)

  /** The single parameter object of a `wallet_sendCalls` request. */
  datatype SendCallsParams = SendCallsParams(
    version: string,
    chainId: nat,
    from: string,
    calls: seq<Call>,
    capabilities: Option<PaymasterService>)

  /** A request handed to the wallet provider. */
  datatype Request = Request(rpcMethod: string, params: SendCallsParams)

  /** What the provider did with one attempt: it returned a result or threw. */
  datatype ProviderError = ProviderError(message: Option<string>)
  datatype AttemptOutcome = Accepted(result: string) | Rejected(error: ProviderError)

  /** How a send ends: the provider's result, a skipped payment (`null`), or a thrown error. */
  datatype SendOutcome = Sent(result: string) | Skipped | Threw(error: ProviderError)

  /** What a send does, in order: submit a request, or wait before the next one. */
  datatype Step = Submit(request: Request) | Pause(ms: nat)

  const SEND_CALLS_METHOD: string := "wallet_sendCalls"
  const SEND_CALLS_VERSION: string := "1.0"
  /** The loop runs `attempt` from 0 to MAX_RETRIES inclusive. */
  const MAX_RETRIES: nat := 2
  const MAX_ATTEMPTS: nat := MAX_RETRIES + 1
  const RETRY_DELAY_MS: nat := 500
  const REPLACEMENT_UNDERPRICED: string := "replacement underpriced"
  const INVALID_ACCOUNT_NONCE: string := "invalid account nonce"

  /** The destination of a tip: the first verified address, else the custody address. */
  function GetPaymentAddress(author: FarcasterUser): (address: string)
    ensures |author.verifications| > 0 ==> address == author.verifications[0]
    ensures |author.verifications| == 0 ==> address == author.custodyAddress
    ensures address in author.verifications || address == author.custodyAddress
  {
    if |author.verifications| > 0 then author.verifications[0] else author.custodyAddress
  }

  /** parseUnits: the amount expressed in base units of a token with `decimals` decimals. */
  function ParseUnits(amount: Decimal, decimals: nat): (units: nat)
    requires amount.scale <= decimals
    ensures units * Pow10(amount.scale) == amount.mantissa * Pow10(decimals)
  {
    Pow10Add(decimals - amount.scale, amount.scale);
    amount.mantissa * Pow10(decimals - amount.scale)
  }

  /** One USDC transfer of `amount` to `recipient`, sent to the token contract with no native value. */
  function CreatePaymentCall(recipient: string, amount: UsdcAmount): (c: Call)
    ensures c.to == USDC_ADDRESS && c.value == "0x0"
    ensures c.data.recipient == recipient
    ensures c.data.units * Pow10(amount.scale) == amount.mantissa * Pow10(USDC_DECIMALS)
  {
    Call(USDC_ADDRESS, "0x0", Transfer(recipient, ParseUnits(amount, USDC_DECIMALS)))
  }

  /** A tip of 0.0001 USDC is 100 base units. */
  lemma {:induction false} TipIsHundredUnits(recipient: string)
    ensures CreatePaymentCall(recipient, VIEWPORT_TIP_AMOUNT).data.units == 100
    ensures CreatePaymentCall(recipient, ENGAGEMENT_TIP_AMOUNT).data.units == 100
  {
    assert Pow10(2) == 100;
  }

  /** The calls of a batch: one transfer per recipient, in recipient order. */
  function BuildCalls(recipients: seq<Recipient>): (calls: seq<Call>)
    ensures |calls| == |recipients|
    ensures forall i :: 0 <= i < |calls| ==>
      calls[i].to == USDC_ADDRESS && calls[i].data.recipient == recipients[i].address
      && calls[i] == CreatePaymentCall(recipients[i].address, recipients[i].amount)
  {
    seq(|recipients|, i requires 0 <= i < |recipients| =>
      CreatePaymentCall(recipients[i].address, recipients[i].amount))
  }

  /** The request parameters; the paymaster capability is present iff the URL is truthy. */
  function BuildParams(from: string, calls: seq<Call>, paymasterUrl: Option<string>): (p: SendCallsParams)
    ensures p.version == SEND_CALLS_VERSION && p.chainId == CHAIN_ID
    ensures p.from == from && p.calls == calls
    ensures p.capabilities.Some? <==> Truthy(paymasterUrl)
    ensures p.capabilities.Some? ==> p.capabilities.value.url == paymasterUrl.value
  {
    var base := SendCallsParams(SEND_CALLS_VERSION, CHAIN_ID, from, calls, None);
    if Truthy(paymasterUrl) then base.(capabilities := Some(PaymasterService(paymasterUrl.value)))
    else base
  }

  /** `error?.message || ''`: a missing message reads as the empty string. */
  function ErrorMessage(e: ProviderError): (msg: string)
    ensures e.message.None? ==> msg == ""
  {
    if e.message.Some? then e.message.value else ""
  }

  /** A nonce or replacement conflict: the payment is abandoned rather than retried. */
  predicate IsConflict(e: ProviderError)
    ensures e.message.None? ==> !IsConflict(e)
  {
    var msg := ErrorMessage(e);
    Includes(msg, REPLACEMENT_UNDERPRICED) || Includes(msg, INVALID_ACCOUNT_NONCE)
  }

  /** A failure that is retried: thrown, and not a conflict. */
  predicate IsRetryable(o: AttemptOutcome) {
    o.Rejected? && !IsConflict(o.error)
  }

  /** The shape of a send's activity: `attempts` submissions of `req`, with one pause between
      consecutive submissions and none after the last. */
  predicate IsRetryTrace(trace: seq<Step>, req: Request, attempts: nat) {
    && |trace| == 2 * attempts - 1
    && forall i :: 0 <= i < |trace| ==>
         trace[i] == (if i % 2 == 0 then Submit(req) else Pause(RETRY_DELAY_MS))
  }

  /** The retry rule: every attempt but the last failed retryably; the last decides the outcome;
      a throw happens only after the third retryable failure and carries that failure's error. */
  predicate FollowsRetryRule(outcomes: seq<AttemptOutcome>, req: Request,
                             r: SendOutcome, trace: seq<Step>, attempts: nat)
  {
    && 1 <= attempts <= MAX_ATTEMPTS && attempts <= |outcomes|
    && IsRetryTrace(trace, req, attempts)
    && (forall i :: 0 <= i < attempts - 1 ==> IsRetryable(outcomes[i]))
    && match r
       case Sent(result) => outcomes[attempts - 1] == Accepted(result)
       case Skipped => outcomes[attempts - 1].Rejected? && IsConflict(outcomes[attempts - 1].error)
       case Threw(error) =>
         attempts == MAX_ATTEMPTS && outcomes[attempts - 1] == Rejected(error)
         && !IsConflict(error)
  }

  /** Submits `params` until the provider accepts, reports a conflict, or three attempts failed.
      `outcomes[k]` is what the provider does with attempt k. */
  method SubmitWithRetry(params: SendCallsParams, outcomes: seq<AttemptOutcome>)
    returns (r: SendOutcome, trace: seq<Step>, attempts: nat)
    requires |outcomes| >= MAX_ATTEMPTS
    ensures FollowsRetryRule(outcomes, Request(SEND_CALLS_METHOD, params), r, trace, attempts)
  {
    var req := Request(SEND_CALLS_METHOD, params);
    var lastError := ProviderError(None);
    trace := [];
    var attempt := 0;
    while attempt <= MAX_RETRIES
      invariant 0 <= attempt <= MAX_ATTEMPTS
      invariant forall i :: 0 <= i < attempt ==> IsRetryable(outcomes[i])
      invariant attempt > 0 ==> outcomes[attempt - 1] == Rejected(lastError)
      invariant |trace| == if attempt == MAX_ATTEMPTS then 2 * attempt - 1 else 2 * attempt
      invariant forall i :: 0 <= i < |trace| ==>
        trace[i] == (if i % 2 == 0 then Submit(req) else Pause(RETRY_DELAY_MS))
    {
      trace := trace + [Submit(req)];
      var outcome := outcomes[attempt];
      if outcome.Accepted? {
        r, attempts := Sent(outcome.result), attempt + 1;
        return;
      }
      lastError := outcome.error;
      var msg := ErrorMessage(lastError);
      if Includes(msg, REPLACEMENT_UNDERPRICED) || Includes(msg, INVALID_ACCOUNT_NONCE) {
        r, attempts := Skipped, attempt + 1;
        return;
      }
      if attempt < MAX_RETRIES {
        trace := trace + [Pause(RETRY_DELAY_MS)];
      }
      attempt := attempt + 1;
    }
    r, attempts := Threw(lastError), MAX_ATTEMPTS;
  }

  /** Reference count of attempts: attempts continue past index k only while the outcome at k
      is a retryable failure and k is not the last allowed attempt. */
  function AttemptsMade(outcomes: seq<AttemptOutcome>, k: nat): (n: nat)
    requires k < MAX_ATTEMPTS <= |outcomes|
    ensures k < n <= MAX_ATTEMPTS
    decreases MAX_ATTEMPTS - k
  {
    if k == MAX_RETRIES || !IsRetryable(outcomes[k]) then k + 1 else AttemptsMade(outcomes, k + 1)
  }

  /** Under the retry rule the number of attempts is the reference count. */
  lemma {:induction false} RetryRuleAttempts(outcomes: seq<AttemptOutcome>, req: Request,
                                             r: SendOutcome, trace: seq<Step>, attempts: nat, k: nat)
    requires |outcomes| >= MAX_ATTEMPTS
    requires FollowsRetryRule(outcomes, req, r, trace, attempts)
    requires k < attempts
    ensures AttemptsMade(outcomes, k) == attempts
    decreases attempts - k
  {
    if k < attempts - 1 {
      assert IsRetryable(outcomes[k]);
      RetryRuleAttempts(outcomes, req, r, trace, attempts, k + 1);
    }
  }

  /** The retry rule leaves no freedom: the outcomes of the attempts fix the result, the
      activity and the number of attempts. */
  lemma RetryRuleIsDeterministic(outcomes: seq<AttemptOutcome>, req: Request,
                                 r1: SendOutcome, trace1: seq<Step>, attempts1: nat,
                                 r2: SendOutcome, trace2: seq<Step>, attempts2: nat)
    requires |outcomes| >= MAX_ATTEMPTS
    requires FollowsRetryRule(outcomes, req, r1, trace1, attempts1)
    requires FollowsRetryRule(outcomes, req, r2, trace2, attempts2)
    ensures r1 == r2 && trace1 == trace2 && attempts1 == attempts2
  {
    RetryRuleAttempts(outcomes, req, r1, trace1, attempts1, 0);
    RetryRuleAttempts(outcomes, req, r2, trace2, attempts2, 0);
    assert |trace1| == |trace2|;
    assert forall i :: 0 <= i < |trace1| ==> trace1[i] == trace2[i];
  }

  /** sendSinglePayment: one transfer call, submitted under the retry rule. */
  method SendSinglePayment(from: string, recipient: string, amount: UsdcAmount,
                           paymasterUrl: Option<string>, outcomes: seq<AttemptOutcome>)
    returns (params: SendCallsParams, r: SendOutcome, trace: seq<Step>, attempts: nat)
    requires |outcomes| >= MAX_ATTEMPTS
    ensures |params.calls| == 1
    ensures params.calls[0] == CreatePaymentCall(recipient, amount)
    ensures params == BuildParams(from, params.calls, paymasterUrl)
    ensures FollowsRetryRule(outcomes, Request(SEND_CALLS_METHOD, params), r, trace, attempts)
  {
    params := BuildParams(from, [CreatePaymentCall(recipient, amount)], paymasterUrl);
    r, trace, attempts := SubmitWithRetry(params, outcomes);
  }

  /** sendBatchPayments: one transfer call per recipient, in order, submitted as one request
      under the retry rule. */
  method SendBatchPayments(from: string, recipients: seq<Recipient>,
                           paymasterUrl: Option<string>, outcomes: seq<AttemptOutcome>)
    returns (params: SendCallsParams, r: SendOutcome, trace: seq<Step>, attempts: nat)
    requires |outcomes| >= MAX_ATTEMPTS
    ensures |params.calls| == |recipients|
    ensures forall i :: 0 <= i < |recipients| ==>
      params.calls[i] == CreatePaymentCall(recipients[i].address, recipients[i].amount)
    ensures params == BuildParams(from, params.calls, paymasterUrl)
    ensures FollowsRetryRule(outcomes, Request(SEND_CALLS_METHOD, params), r, trace, attempts)
  {
    params := BuildParams(from, BuildCalls(recipients), paymasterUrl);
    r, trace, attempts := SubmitWithRetry(params, outcomes);
  }
}
