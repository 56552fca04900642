/** The submit pipeline `sendTokenizeRequest`: validate the trimmed
    settings, build the SDK client and the payment-method payload, call the
    plain or the 3DS tokenize operation, and report exactly one outcome, with
    the loading flag raised first and cleared last. The SDK is an input: what
    its constructor and its two tokenize calls do is given by an `Sdk` value,
    and the model records which calls are made with which arguments. */
module Tokenize {
  import opened KotlinText
  import opened FieldOptions
  import opened ErrorDisplay

  datatype Server = SANDBOX | PRODUCTION

  /** What the SDK client is built from. */
  datatype ClientConfig = ClientConfig(gr4vyId: string, token: string, server: Server, timeout: Option<real>)

  /** The payment-method payload; an absent security code is sent as null. */
  datatype PaymentMethod =
    | Card(number: string, expirationDate: string, securityCode: Option<string>)
    | Id(id: string, securityCode: Option<string>)

  datatype Authentication = Authentication(
    transactionStatus: Option<string>, attempted: bool, hasTimedOut: bool,
    hasCancelled: bool, authType: Option<string>)

  /** What the 3DS tokenize call returns. */
  datatype ThreeDSResult = ThreeDSResult(tokenized: bool, authentication: Option<Authentication>)

  /** How an SDK call ends: with a value, or with a raised failure. */
  datatype Returns<T> = Returned(value: T) | Raised(failure: SdkFailure)

  /** An exception thrown outside the SDK's tokenize calls, with its message. */
  datatype Fault = Fault(message: Option<string>)

  /** The behaviour of the SDK for one submission: whether the client
      constructor throws, whether building the payload throws, and how each
      tokenize call ends (the plain call returns the raw response body). */
  datatype Sdk = Sdk(
    construction: Option<Fault>,
    paymentMethodFault: Option<Fault>,
    tokenizeResult: Returns<string>,
    tokenize3DSResult: Returns<ThreeDSResult>)

  /** The arguments of `sendTokenizeRequest`. `timeout` is the admin
      timeout already read with `toDoubleOrNull` (None when blank or not a
      number). */
  datatype Request = Request(
    gr4vyId: string, apiToken: string, serverEnvironment: string, timeout: Option<real>,
    checkoutSessionId: string, paymentMethodType: PaymentMethodType,
    cardNumber: string, expirationDate: string, securityCode: string,
    paymentMethodId: string, idSecurityCode: string,
    authenticate: bool, selectedTheme: ThemeOption, sdkMaxTimeout: string)

  /** One observable step of a submission: a callback, or a call into the SDK. */
  datatype Step =
    | OnLoading(loading: bool)
    | CreateClient(config: ClientConfig)
    | Tokenize(checkoutSessionId: string, paymentMethod: PaymentMethod)
    | Tokenize3DS(checkoutSessionId: string, paymentMethod: PaymentMethod,
                  sdkMaxTimeoutMinutes: int, authenticate: bool, uiCustomization: Option<ThemeBundle>)
    | OnSuccess(response: string)
    | OnError(title: string, body: string)
  {
    /** A navigation callback: `onSuccess` or `onError`. */
    predicate IsOutcome() {
      OnSuccess? || OnError?
    }
  }

  function ErrorStep(screen: ErrorScreen): Step {
    OnError(screen.title, screen.body)
  }

  /** The number of navigation callbacks in a trace. */
  function Outcomes(steps: seq<Step>): nat {
    if steps == [] then 0
    else (if steps[0].IsOutcome() then 1 else 0) + Outcomes(steps[1..])
  }

  lemma {:induction false} OutcomesAppend(a: seq<Step>, b: seq<Step>)
    ensures Outcomes(a + b) == Outcomes(a) + Outcomes(b)
  {
    if a == [] {
      assert a + b == b;
    } else {
      assert (a + b)[0] == a[0];
      assert (a + b)[1..] == a[1..] + b;
      OutcomesAppend(a[1..], b);
    }
  }

  // ---------------------------------------------------------------- the pieces of the pipeline

  /** The first of the three input checks that fails, as the error it
      reports; the checks look at the trimmed ID, token and session. */
  function ValidationFailure(req: Request): Option<ErrorReport> {
    if Trim(req.gr4vyId) == [] then Some(MissingGr4vyId)
    else if Trim(req.apiToken) == [] then Some(MissingApiToken)
    else if Trim(req.checkoutSessionId) == [] then Some(MissingCheckoutSession)
    else None
  }

  const MissingGr4vyId := Formatted("Configuration Error", "Please configure Gr4vy ID in Admin settings", [])
  const MissingApiToken := Formatted("Configuration Error", "Please configure API Token in Admin settings", [])
  const MissingCheckoutSession := Formatted("Validation Error", "Please enter checkout_session_id", [])

  /** The server: production only for the exact, case-sensitive setting
      "production"; any other text, blank included, selects the sandbox. */
  function ServerFor(serverEnvironment: string): (r: Server)
    ensures r == PRODUCTION <==> serverEnvironment == "production"
    ensures r == SANDBOX <==> serverEnvironment != "production"
  {
    if serverEnvironment == "production" then PRODUCTION else SANDBOX
  }

  /** The client timeout: passed on only when it is a positive number. */
  function ClientTimeout(timeout: Option<real>): (r: Option<real>)
    ensures r.Some? ==> r == timeout && r.value > 0.0
    ensures timeout.Some? && timeout.value > 0.0 ==> r == timeout
  {
    if timeout.Some? && timeout.value > 0.0 then timeout else None
  }

  function ClientConfigOf(req: Request): ClientConfig {
    ClientConfig(Trim(req.gr4vyId), Trim(req.apiToken), ServerFor(req.serverEnvironment), ClientTimeout(req.timeout))
  }

  /** A security code is sent trimmed, or left out when it is blank. */
  function OptionalSecurityCode(code: string): (r: Option<string>)
    ensures r.None? <==> IsBlank(code)
    ensures r.Some? ==> r.value == Trim(code) && !IsBlank(r.value)
  {
    TrimEmpty(code);
    TrimEnds(code);
    if Trim(code) != [] then
      assert !IsWhitespace(Trim(code)[0]);
      Some(Trim(code))
    else None
  }

  /** The payload for the selected payment-method type, from its own fields. */
  function PaymentMethodOf(req: Request): (r: PaymentMethod)
    ensures req.paymentMethodType == CARD <==> r.Card?
    ensures r.Card? ==> r.number == Trim(req.cardNumber) && r.expirationDate == Trim(req.expirationDate)
                        && r.securityCode == OptionalSecurityCode(req.securityCode)
    ensures r.Id? ==> r.id == Trim(req.paymentMethodId) && r.securityCode == OptionalSecurityCode(req.idSecurityCode)
  {
    match req.paymentMethodType
    case CARD => Card(Trim(req.cardNumber), Trim(req.expirationDate), OptionalSecurityCode(req.securityCode))
    case ID => Id(Trim(req.paymentMethodId), OptionalSecurityCode(req.idSecurityCode))
  }

  /** The 3DS path is taken for a card with authentication switched on. */
  predicate UsesThreeDS(req: Request) {
    req.paymentMethodType == CARD && req.authenticate
  }

  /** `coerceIn(low, high)`. */
  function CoerceIn(v: int, low: int, high: int): int
    requires low <= high
  {
    if v < low then low else if v > high then high else v
  }

  /** The challenge timeout in minutes: the trimmed field read as an `Int`
      (5 when that fails), forced into [5, 99]. */
  function ChallengeTimeout(sdkMaxTimeout: string): (r: int)
    ensures 5 <= r <= 99
    ensures ToIntOrNull(Trim(sdkMaxTimeout)).None? ==> r == 5
    ensures ToIntOrNull(Trim(sdkMaxTimeout)).Some? ==>
      var n := ToIntOrNull(Trim(sdkMaxTimeout)).value;
      && (5 <= n <= 99 ==> r == n)
      && (n < 5 ==> r == 5)
      && (n > 99 ==> r == 99)
  {
    CoerceIn(ToIntOrNull(Trim(sdkMaxTimeout)).GetOr(5), 5, 99)
  }

  const NoContentResponse: string := "{\"result\": \"OK\"}"

  /** A blank body (204 No Content) is shown as a fixed minimal result; any
      other body is shown as it came. Either way what is shown is not blank. */
  function PlainResponse(rawResponse: string): (r: string)
    ensures IsBlank(rawResponse) ==> r == NoContentResponse
    ensures !IsBlank(rawResponse) ==> r == rawResponse
    ensures !IsBlank(r)
  {
    if IsBlank(rawResponse) then
      assert !IsWhitespace(NoContentResponse[0]);
      NoContentResponse
    else rawResponse
  }

  /** A string template of a nullable string: quoted, or the word null. */
  function QuotedOrNull(s: Option<string>): string {
    match s
    case Some(v) => "\"" + v + "\""
    case None => "null"
  }

  function BoolText(b: bool): string {
    if b then "true" else "false"
  }

  function AuthenticationFields(auth: Option<Authentication>): string {
    match auth
    case None => ""
    case Some(a) =>
      "\"transaction_status\": " + QuotedOrNull(a.transactionStatus) + ","
      + "\"attempted\": " + BoolText(a.attempted) + ","
      + "\"timed_out\": " + BoolText(a.hasTimedOut) + ","
      + "\"user_cancelled\": " + BoolText(a.hasCancelled) + ","
      + "\"type\": " + QuotedOrNull(a.authType)
  }

  /** The success text of the 3DS path: an `authentication` object (empty
      when the SDK reports none) followed by the `tokenized` flag. */
  function ThreeDSResponse(result: ThreeDSResult): (r: string)
    ensures StartsWith(r, "{\"authentication\": {")
    ensures EndsWith(r, "},\"tokenized\": " + BoolText(result.tokenized) + "}")
  {
    var head := "{\"authentication\": {";
    var fields := AuthenticationFields(result.authentication);
    var tail := "},\"tokenized\": " + BoolText(result.tokenized) + "}";
    EnclosedEnds(head, fields, tail);
    head + fields + tail
  }

  /** The two errors `sendTokenizeRequest` reports for exceptions it
      catches itself: a client that cannot be built, and anything else thrown
      outside the tokenize call. */
  function SdkConfigurationError(fault: Fault): ErrorReport {
    Formatted("SDK Configuration Error", "Failed to configure Gr4vy SDK: " + fault.message.GetOr("null"), [])
  }

  function UnexpectedError(fault: Fault): ErrorReport {
    Formatted("Unexpected Error", fault.message.GetOr("An unknown error occurred"), [])
  }

  // ---------------------------------------------------------------- the specification of a submission

  /** Every input check passed and the SDK client and the payload were built,
      so a tokenize call is made. */
  predicate ReachesTokenize(req: Request, sdk: Sdk) {
    ValidationFailure(req).None? && sdk.construction.None? && sdk.paymentMethodFault.None?
  }

  /** The tokenize call a submission makes once it gets that far. */
  function TokenizeCall(req: Request): Step {
    if UsesThreeDS(req) then
      Tokenize3DS(Trim(req.checkoutSessionId), PaymentMethodOf(req), ChallengeTimeout(req.sdkMaxTimeout),
                  req.authenticate, UiCustomization(req.selectedTheme))
    else Tokenize(Trim(req.checkoutSessionId), PaymentMethodOf(req))
  }

  /** What the tokenize call's ending is shown as. */
  function CallOutcome(req: Request, sdk: Sdk): Step {
    if UsesThreeDS(req) then
      match sdk.tokenize3DSResult
      case Returned(result) => OnSuccess(ThreeDSResponse(result))
      case Raised(failure) => ErrorStep(Present(ClassifyFailure(failure, Trim(req.gr4vyId))))
    else
      match sdk.tokenizeResult
      case Returned(raw) => OnSuccess(PlainResponse(raw))
      case Raised(failure) => ErrorStep(Present(ClassifyFailure(failure, Trim(req.gr4vyId))))
  }

  /** The steps after the SDK client has been asked for: an error if it or
      the payload cannot be built, otherwise the tokenize call and its outcome. */
  function ClientSteps(req: Request, sdk: Sdk): seq<Step> {
    if sdk.construction.Some? then [ErrorStep(Present(SdkConfigurationError(sdk.construction.value)))]
    else if sdk.paymentMethodFault.Some? then [ErrorStep(Present(UnexpectedError(sdk.paymentMethodFault.value)))]
    else [TokenizeCall(req), CallOutcome(req, sdk)]
  }

  /** The steps between raising and clearing the loading flag. */
  function RequestSteps(req: Request, sdk: Sdk): seq<Step> {
    match ValidationFailure(req)
    case Some(report) => [ErrorStep(Present(report))]
    case None => [CreateClient(ClientConfigOf(req))] + ClientSteps(req, sdk)
  }

  // ---------------------------------------------------------------- the pipeline

  /** The inner `try`: the 3DS call for a card with authentication on,
      the plain call otherwise; a failure of either goes to
      `handleGr4vyError`. */
  method CallTokenize(req: Request, paymentMethod: PaymentMethod, trimmedGr4vyId: string, sdk: Sdk)
    returns (steps: seq<Step>)
    requires paymentMethod == PaymentMethodOf(req) && trimmedGr4vyId == Trim(req.gr4vyId)
    ensures steps == [TokenizeCall(req), CallOutcome(req, sdk)]
  {
    if req.paymentMethodType == CARD && req.authenticate {
      var uiCustomization := UiCustomization(req.selectedTheme);
      var timeoutMinutes := ChallengeTimeout(req.sdkMaxTimeout);
      steps := [Tokenize3DS(Trim(req.checkoutSessionId), paymentMethod, timeoutMinutes, req.authenticate, uiCustomization)];
      match sdk.tokenize3DSResult {
        case Returned(result) =>
          steps := steps + [OnSuccess(ThreeDSResponse(result))];
        case Raised(failure) =>
          var screen := HandleGr4vyError(failure, trimmedGr4vyId);
          steps := steps + [ErrorStep(screen)];
      }
    } else {
      steps := [Tokenize(Trim(req.checkoutSessionId), paymentMethod)];
      match sdk.tokenizeResult {
        case Returned(rawResponse) =>
          steps := steps + [OnSuccess(PlainResponse(rawResponse))];
        case Raised(failure) =>
          var screen := HandleGr4vyError(failure, trimmedGr4vyId);
          steps := steps + [ErrorStep(screen)];
      }
    }
  }

  /** The body of the outer `try`: the three checks with their early
      returns, the client, the payload, then the tokenize call. */
  method RunTokenize(req: Request, sdk: Sdk) returns (steps: seq<Step>)
    ensures steps == RequestSteps(req, sdk)
  {
    var trimmedGr4vyId := Trim(req.gr4vyId);
    var trimmedToken := Trim(req.apiToken);
    if trimmedGr4vyId == [] {
      var screen := PresentReport(MissingGr4vyId);
      return [ErrorStep(screen)];
    }
    if trimmedToken == [] {
      var screen := PresentReport(MissingApiToken);
      return [ErrorStep(screen)];
    }
    if Trim(req.checkoutSessionId) == [] {
      var screen := PresentReport(MissingCheckoutSession);
      return [ErrorStep(screen)];
    }

    var server := ServerFor(req.serverEnvironment);
    steps := [CreateClient(ClientConfig(trimmedGr4vyId, trimmedToken, server, ClientTimeout(req.timeout)))];
    if sdk.construction.Some? {
      var screen := PresentReport(SdkConfigurationError(sdk.construction.value));
      steps := steps + [ErrorStep(screen)];
      return;
    }

    var paymentMethod := PaymentMethodOf(req);
    if sdk.paymentMethodFault.Some? {
      var screen := PresentReport(UnexpectedError(sdk.paymentMethodFault.value));
      steps := steps + [ErrorStep(screen)];
      return;
    }

    var called := CallTokenize(req, paymentMethod, trimmedGr4vyId, sdk);
    steps := steps + called;
  }

  /** `sendTokenizeRequest`: `onLoading(true)`, the body, and a `finally`
      that calls `onLoading(false)` on every way out. The loading flag is
      raised first, cleared last and touched nowhere else, and exactly one
      navigation callback fires in between. */
  method SendTokenizeRequest(req: Request, sdk: Sdk) returns (trace: seq<Step>)
    ensures trace == [OnLoading(true)] + RequestSteps(req, sdk) + [OnLoading(false)]
    ensures |trace| >= 3 && trace[0] == OnLoading(true) && trace[|trace| - 1] == OnLoading(false)
    ensures forall i :: 0 < i < |trace| - 1 ==> !trace[i].OnLoading?
    ensures Outcomes(trace) == 1
  {
    trace := [OnLoading(true)];
    var steps := RunTokenize(req, sdk);
    trace := trace + steps;
    trace := trace + [OnLoading(false)];
    OneOutcome(req, sdk);
    OutcomesAppend([OnLoading(true)], steps);
    OutcomesAppend([OnLoading(true)] + steps, [OnLoading(false)]);
    assert Outcomes([OnLoading(false)]) == 0;
  }

  // ---------------------------------------------------------------- properties

  /** The three checks run in a fixed order, and the first that fails is the
      only thing that happens: one error and no SDK client. The SDK client is
      asked for exactly when all three pass, and then first, from the trimmed
      ID and token. */
  lemma ValidationShortCircuits(req: Request, sdk: Sdk)
    ensures IsBlank(req.gr4vyId) ==>
      RequestSteps(req, sdk) ==
        [ErrorStep(Present(Formatted("Configuration Error", "Please configure Gr4vy ID in Admin settings", [])))]
    ensures !IsBlank(req.gr4vyId) && IsBlank(req.apiToken) ==>
      RequestSteps(req, sdk) ==
        [ErrorStep(Present(Formatted("Configuration Error", "Please configure API Token in Admin settings", [])))]
    ensures !IsBlank(req.gr4vyId) && !IsBlank(req.apiToken) && IsBlank(req.checkoutSessionId) ==>
      RequestSteps(req, sdk) ==
        [ErrorStep(Present(Formatted("Validation Error", "Please enter checkout_session_id", [])))]
    ensures RequestSteps(req, sdk)[0].CreateClient? <==>
      !IsBlank(req.gr4vyId) && !IsBlank(req.apiToken) && !IsBlank(req.checkoutSessionId)
    ensures RequestSteps(req, sdk)[0].CreateClient? ==>
      RequestSteps(req, sdk)[0].config == ClientConfig(Trim(req.gr4vyId), Trim(req.apiToken),
                                                       ServerFor(req.serverEnvironment), ClientTimeout(req.timeout))
  {
    TrimEmpty(req.gr4vyId);
    TrimEmpty(req.apiToken);
    TrimEmpty(req.checkoutSessionId);
  }

  /** Exactly one navigation callback, as the last step; nothing else in
      between touches the loading flag. */
  lemma OneOutcome(req: Request, sdk: Sdk)
    ensures var steps := RequestSteps(req, sdk);
      && |steps| >= 1 && steps[|steps| - 1].IsOutcome()
      && (forall i :: 0 <= i < |steps| - 1 ==> !steps[i].IsOutcome())
      && (forall i :: 0 <= i < |steps| ==> !steps[i].OnLoading?)
      && Outcomes(steps) == 1
  {
    var steps := RequestSteps(req, sdk);
    if |steps| == 1 {
      assert Outcomes(steps) == 1 + Outcomes(steps[1..]);
    } else if |steps| == 2 {
      assert Outcomes(steps) == Outcomes(steps[1..]);
      assert Outcomes(steps[1..]) == 1 + Outcomes(steps[2..]);
    } else {
      assert Outcomes(steps) == Outcomes(steps[1..]);
      assert Outcomes(steps[1..]) == Outcomes(steps[2..]);
      assert Outcomes(steps[2..]) == 1 + Outcomes(steps[3..]);
    }
  }

  /** The 3DS call is made exactly when the submission gets to the SDK with a
      card and authentication on, and the plain call exactly when it gets
      there otherwise. */
  lemma TokenizePathChosen(req: Request, sdk: Sdk)
    ensures var steps := RequestSteps(req, sdk);
      && ((exists i :: 0 <= i < |steps| && steps[i].Tokenize3DS?) <==> ReachesTokenize(req, sdk) && UsesThreeDS(req))
      && ((exists i :: 0 <= i < |steps| && steps[i].Tokenize?) <==> ReachesTokenize(req, sdk) && !UsesThreeDS(req))
  {
    var steps := RequestSteps(req, sdk);
    if ReachesTokenize(req, sdk) {
      assert steps[1] == TokenizeCall(req);
    }
  }

  /** Whatever the field holds, the 3DS call gets a timeout in [5, 99], with
      authentication on, for a card payload of trimmed fields. */
  lemma ThreeDSCallArguments(req: Request, sdk: Sdk, i: nat)
    requires i < |RequestSteps(req, sdk)| && RequestSteps(req, sdk)[i].Tokenize3DS?
    ensures var call := RequestSteps(req, sdk)[i];
      && 5 <= call.sdkMaxTimeoutMinutes <= 99
      && call.sdkMaxTimeoutMinutes == ChallengeTimeout(req.sdkMaxTimeout)
      && call.authenticate
      && call.checkoutSessionId == Trim(req.checkoutSessionId)
      && call.paymentMethod == Card(Trim(req.cardNumber), Trim(req.expirationDate), OptionalSecurityCode(req.securityCode))
      && (call.uiCustomization.None? <==> req.selectedTheme == NONE)
  {
    var steps := RequestSteps(req, sdk);
    assert i == 1 && steps[1] == TokenizeCall(req);
  }

  /** How the tokenize call's ending is shown: a plain success as its body,
      or the fixed minimal result when that is blank; a 3DS success as the
      authentication JSON; a failure as `handleGr4vyError` presents it. */
  lemma TokenizeOutcome(req: Request, sdk: Sdk)
    requires ReachesTokenize(req, sdk)
    ensures var steps := RequestSteps(req, sdk);
      && |steps| == 3
      && (!UsesThreeDS(req) && sdk.tokenizeResult.Returned? ==>
            steps[2] == OnSuccess(if IsBlank(sdk.tokenizeResult.value) then NoContentResponse
                                  else sdk.tokenizeResult.value))
      && (UsesThreeDS(req) && sdk.tokenize3DSResult.Returned? ==>
            steps[2] == OnSuccess(ThreeDSResponse(sdk.tokenize3DSResult.value)))
      && (UsesThreeDS(req) && sdk.tokenize3DSResult.Raised? ==>
            var failure := sdk.tokenize3DSResult.failure;
            steps[2] == ErrorStep(Present(ClassifyFailure(failure, Trim(req.gr4vyId)))))
      && (!UsesThreeDS(req) && sdk.tokenizeResult.Raised? ==>
            var failure := sdk.tokenizeResult.failure;
            steps[2] == ErrorStep(Present(ClassifyFailure(failure, Trim(req.gr4vyId)))))
  {
  }

  /** A client that cannot be built, or a payload that cannot be, ends the
      submission with its own error after the client step and before any
      tokenize call. */
  lemma ConstructionFailures(req: Request, sdk: Sdk)
    requires ValidationFailure(req).None?
    ensures sdk.construction.Some? ==>
      RequestSteps(req, sdk) ==
        [CreateClient(ClientConfigOf(req)), ErrorStep(Present(SdkConfigurationError(sdk.construction.value)))]
    ensures sdk.construction.None? && sdk.paymentMethodFault.Some? ==>
      RequestSteps(req, sdk) ==
        [CreateClient(ClientConfigOf(req)), ErrorStep(Present(UnexpectedError(sdk.paymentMethodFault.value)))]
  {
  }
}
