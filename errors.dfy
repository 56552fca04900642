/** How the fields screen turns a failure into what the response screen
    shows: `showErrorResponse` lays out a small JSON object, and
    `handleGr4vyError` picks its title, description and extra fields from the
    SDK's failure variant. */
module ErrorDisplay {
  import opened KotlinText

  /** A `"key": "value"` pair of `additionalDetails`, kept in insertion order. */
  type Detail = (string, string)

  /** What the navigation callback `onError(title, body)` receives. */
  datatype ErrorScreen = ErrorScreen(title: string, body: string)

  // ---------------------------------------------------------------- layout

  /** One field line of the error JSON: two spaces, then `"key": "value"`. */
  function Field(key: string, value: string): string {
    "  \"" + key + "\": \"" + value + "\""
  }

  /** The extra fields, each introduced by a comma and a line break. */
  function ExtraFields(details: seq<Detail>): string {
    if details == [] then ""
    else ",\n" + Field(details[0].0, details[0].1) + ExtraFields(details[1..])
  }

  /** The text `showErrorResponse` builds: `error`, then `description`, then
      the extra fields in order, one per line, inside braces. */
  function ErrorJson(title: string, description: string, details: seq<Detail>): string {
    "{\n" + Field("error", title) + ",\n" + Field("description", description)
    + ExtraFields(details) + "\n}"
  }

  lemma {:induction false} ExtraFieldsSnoc(details: seq<Detail>, d: Detail)
    ensures ExtraFields(details + [d]) == ExtraFields(details) + ",\n" + Field(d.0, d.1)
  {
    if details == [] {
      assert [d][1..] == [];
    } else {
      assert (details + [d])[1..] == details[1..] + [d];
      ExtraFieldsSnoc(details[1..], d);
    }
  }

  /** The two fixed lines as `showErrorResponse` appends them are the
      opening of `ErrorJson`. */
  lemma ErrorJsonHead(title: string, description: string)
    ensures "{\n" + "  \"error\": \"" + title + "\",\n" + "  \"description\": \"" + description + "\""
         == "{\n" + Field("error", title) + ",\n" + Field("description", description)
  {
  }

  /** One extra field as `showErrorResponse` appends it. */
  lemma ExtraFieldChunk(key: string, value: string)
    ensures ",\n  \"" + key + "\": \"" + value + "\"" == ",\n" + Field(key, value)
  {
  }

  /** One loop round of `showErrorResponse` extends the text by one extra field. */
  lemma ExtraFieldStep(json: string, head: string, done: seq<Detail>, key: string, value: string)
    requires json == head + ExtraFields(done)
    ensures json + ",\n  \"" + key + "\": \"" + value + "\"" == head + ExtraFields(done + [(key, value)])
  {
    ExtraFieldChunk(key, value);
    ExtraFieldsSnoc(done, (key, value));
  }

  /** `showErrorResponse`: appends the fields to a buffer, one
      `additionalDetails` entry per loop round, and hands the text to
      `onError` under the fixed title "Error". */
  method ShowErrorResponse(errorTitle: string, errorDescription: string, additionalDetails: seq<Detail>)
    returns (screen: ErrorScreen)
    ensures screen == ErrorScreen("Error", ErrorJson(errorTitle, errorDescription, additionalDetails))
  {
    var json := "{\n";
    json := json + "  \"error\": \"" + errorTitle + "\",\n";
    json := json + "  \"description\": \"" + errorDescription + "\"";
    ErrorJsonHead(errorTitle, errorDescription);
    ghost var head := "{\n" + Field("error", errorTitle) + ",\n" + Field("description", errorDescription);
    var i := 0;
    while i < |additionalDetails|
      invariant 0 <= i <= |additionalDetails|
      invariant json == head + ExtraFields(additionalDetails[..i])
    {
      var (key, value) := additionalDetails[i];
      ExtraFieldStep(json, head, additionalDetails[..i], key, value);
      json := json + ",\n  \"" + key + "\": \"" + value + "\"";
      assert additionalDetails[..i + 1] == additionalDetails[..i] + [(key, value)];
      i := i + 1;
    }
    assert additionalDetails[..i] == additionalDetails;
    json := json + "\n}";
    screen := ErrorScreen("Error", json);
  }

  // ---------------------------------------------------------------- reading the layout back

  /** No double quote, the one character the layout does not escape. */
  predicate QuoteFree(s: string) {
    '"' !in s
  }

  /** Reads up to the next double quote: the text before it and what follows it. */
  function ReadQuoted(s: string): (r: Option<(string, string)>)
    ensures r.Some? ==> |r.value.1| < |s| && QuoteFree(r.value.0)
  {
    if s == [] then None
    else if s[0] == '"' then Some(([], s[1..]))
    else match ReadQuoted(s[1..])
      case None => None
      case Some((text, rest)) => Some(([s[0]] + text, rest))
  }

  /** Reads one `Field` line and returns the pair and what follows it. */
  function ReadField(s: string): (r: Option<(Detail, string)>)
    ensures r.Some? ==> |r.value.1| < |s| && QuoteFree(r.value.0.0) && QuoteFree(r.value.0.1)
  {
    if !StartsWith(s, "  \"") then None
    else match ReadQuoted(s[3..])
      case None => None
      case Some((key, afterKey)) =>
        if !StartsWith(afterKey, ": \"") then None
        else match ReadQuoted(afterKey[3..])
          case None => None
          case Some((value, rest)) => Some(((key, value), rest))
  }

  /** Reads `,\n`-introduced fields up to the closing `\n}`. */
  function ReadMoreFields(s: string): (r: Option<seq<Detail>>)
    ensures r.Some? ==> forall i :: 0 <= i < |r.value| ==> QuoteFree(r.value[i].0) && QuoteFree(r.value[i].1)
    decreases |s|
  {
    if s == "\n}" then Some([])
    else if !StartsWith(s, ",\n") then None
    else match ReadField(s[2..])
      case None => None
      case Some((d, rest)) =>
        match ReadMoreFields(rest)
        case None => None
        case Some(ds) => Some([d] + ds)
  }

  /** Reads an error JSON text back into its fields, in order; whatever it
      reads is free of double quotes. */
  function ReadErrorJson(s: string): (r: Option<seq<Detail>>)
    ensures r.Some? ==> forall i :: 0 <= i < |r.value| ==> QuoteFree(r.value[i].0) && QuoteFree(r.value[i].1)
  {
    if !StartsWith(s, "{\n") then None
    else match ReadField(s[2..])
      case None => None
      case Some((d, rest)) =>
        match ReadMoreFields(rest)
        case None => None
        case Some(ds) => Some([d] + ds)
  }

  lemma {:induction false} ReadQuotedOf(text: string, rest: string)
    requires QuoteFree(text)
    ensures ReadQuoted(text + "\"" + rest) == Some((text, rest))
  {
    var s := text + "\"" + rest;
    if text == [] {
      assert s == "\"" + rest;
      assert s[1..] == rest;
    } else {
      assert s[1..] == text[1..] + "\"" + rest;
      ReadQuotedOf(text[1..], rest);
      assert [s[0]] + text[1..] == text;
    }
  }

  lemma ReadFieldOf(key: string, value: string, rest: string)
    requires QuoteFree(key) && QuoteFree(value)
    ensures ReadField(Field(key, value) + rest) == Some(((key, value), rest))
  {
    var s := Field(key, value) + rest;
    assert StartsWith(s, "  \"");
    var afterKey := ": \"" + value + "\"" + rest;
    assert s[3..] == key + "\"" + afterKey;
    ReadQuotedOf(key, afterKey);
    assert StartsWith(afterKey, ": \"");
    assert afterKey[3..] == value + "\"" + rest;
    ReadQuotedOf(value, rest);
  }

  lemma {:induction false} ReadMoreFieldsOf(details: seq<Detail>)
    requires forall i :: 0 <= i < |details| ==> QuoteFree(details[i].0) && QuoteFree(details[i].1)
    ensures ReadMoreFields(ExtraFields(details) + "\n}") == Some(details)
  {
    if details != [] {
      var d := details[0];
      var s := ExtraFields(details) + "\n}";
      var tail := ExtraFields(details[1..]) + "\n}";
      assert s == ",\n" + (Field(d.0, d.1) + tail);
      assert s != "\n}" by { assert s[0] == ','; }
      assert s[2..] == Field(d.0, d.1) + tail;
      ReadFieldOf(d.0, d.1, tail);
      ReadMoreFieldsOf(details[1..]);
      assert [d] + details[1..] == details;
    }
  }

  /** The error JSON reads back, in order, as `error`, `description` and the
      extra fields, as long as no value contains a double quote. */
  lemma ErrorJsonReadsBack(title: string, description: string, details: seq<Detail>)
    requires QuoteFree(title) && QuoteFree(description)
    requires forall i :: 0 <= i < |details| ==> QuoteFree(details[i].0) && QuoteFree(details[i].1)
    ensures ReadErrorJson(ErrorJson(title, description, details))
         == Some([("error", title), ("description", description)] + details)
  {
    var all := [("description", description)] + details;
    var more := ExtraFields(all) + "\n}";
    var s := ErrorJson(title, description, details);
    ErrorJsonAsFields(title, description, details);
    assert s[2..] == Field("error", title) + more;
    assert QuoteFree("error") && QuoteFree("description");
    ReadFieldOf("error", title, more);
    ReadMoreFieldsOf(all);
    assert [("error", title)] + all == [("error", title), ("description", description)] + details;
  }

  /** The `description` line is laid out like an extra field. */
  lemma ErrorJsonAsFields(title: string, description: string, details: seq<Detail>)
    ensures ErrorJson(title, description, details)
         == "{\n" + (Field("error", title) + (ExtraFields([("description", description)] + details) + "\n}"))
  {
    var all := [("description", description)] + details;
    assert all[0] == ("description", description) && all[1..] == details;
  }

  /** The layout does not escape quotes, so two different reports can
      render the same text: a description that carries a quote, a line break
      and a further `"key": "value"` pair is shown exactly like the shorter
      description with that pair as an extra field. */
  lemma QuotedDescriptionCollides(title: string, description: string, key: string, value: string)
    ensures var forged := description + "\",\n  \"" + key + "\": \"" + value;
      && forged != description
      && ErrorJson(title, forged, []) == ErrorJson(title, description, [(key, value)])
  {
    var forged := description + "\",\n  \"" + key + "\": \"" + value;
    assert |forged| > |description|;
    ExtraFieldChunk(key, value);
    assert Field("description", forged) == Field("description", description) + ExtraFields([(key, value)]);
  }

  // ---------------------------------------------------------------- classification

  /** The failure variants the SDK raises. `responseData` stands for the bytes
      of the HTTP error body after decoding to text. */
  datatype SdkFailure =
    | InvalidGr4vyId(message: Option<string>)
    | BadURL(url: string)
    | HttpError(statusCode: int, responseData: Option<string>, errorMessage: Option<string>, message: Option<string>)
    | NetworkError(causeMessage: Option<string>, networkMessage: string)
    | DecodingError(decodingMessage: string)
    | ThreeDSError(message: Option<string>)
    | UiContextError(message: Option<string>)
    | Other(message: Option<string>)

  /** What `handleGr4vyError` decides to show: the raw body of an HTTP error,
      or the fields for `showErrorResponse`. */
  datatype ErrorReport =
    | RawResponse(title: string, body: string)
    | Formatted(error: string, description: string, details: seq<Detail>)

  /** The value of the first detail stored under `key`. */
  function DetailValue(details: seq<Detail>, key: string): Option<string> {
    if details == [] then None
    else if details[0].0 == key then Some(details[0].1)
    else DetailValue(details[1..], key)
  }

  function ServerUrl(gr4vyId: string): string {
    "https://api." + gr4vyId + ".gr4vy.app"
  }

  function CannotFindServer(gr4vyId: string): ErrorReport {
    Formatted("Cannot find server", "Please check your Merchant ID (" + gr4vyId + ")",
      [("url", ServerUrl(gr4vyId)), ("error_code", "cannotFindHost")])
  }

  /** The `when` over a network failure's message, first match wins. */
  function ClassifyNetworkError(errorMsg: string, gr4vyId: string): ErrorReport {
    if Contains(errorMsg, "Cannot resolve host") || Contains(errorMsg, "Unable to resolve host") then
      CannotFindServer(gr4vyId)
    else if Contains(errorMsg, "timeout") then
      Formatted("Request timed out", "Please try again", [("error_code", "timedOut")])
    else if Contains(errorMsg, "No address associated with hostname") then
      CannotFindServer(gr4vyId)
    else
      Formatted("Network error", errorMsg, [("error_code", "networkError")])
  }

  /** The HTTP status in the title; the source spells out 400 separately but
      writes the same text for it. */
  function HttpErrorTitle(statusCode: int): (r: string)
    ensures r == "Error Response (Status: " + IntString(statusCode) + ")"
  {
    if statusCode == 400 then
      assert IntString(400) == "400" by {
        assert NaturalString(4) == "4";
        assert NaturalString(40) == "40";
      }
      "Error Response (Status: 400)"
    else "Error Response (Status: " + IntString(statusCode) + ")"
  }

  /** `handleGr4vyError`'s `when` over the failure variant. */
  function ClassifyFailure(failure: SdkFailure, gr4vyId: string): ErrorReport {
    match failure
    case InvalidGr4vyId(message) =>
      Formatted("Invalid Gr4vy ID", message.GetOr("The provided Gr4vy ID is invalid"), [])
    case BadURL(url) =>
      Formatted("Bad URL", "The URL is malformed", [("url", url)])
    case HttpError(statusCode, responseData, errorMessage, message) =>
      if responseData.Some? && responseData.value != [] then
        RawResponse(HttpErrorTitle(statusCode), responseData.value)
      else
        Formatted("HTTP Error " + IntString(statusCode),
          errorMessage.GetOr(message.GetOr("An HTTP error occurred")), [])
    case NetworkError(causeMessage, message) =>
      ClassifyNetworkError(causeMessage.GetOr(message), gr4vyId)
    case DecodingError(errorMessage) =>
      Formatted("Decoding error", errorMessage, [])
    case ThreeDSError(message) =>
      Formatted("3DS error", message.GetOr("3D Secure authentication failed"), [])
    case UiContextError(message) =>
      Formatted("UI error", message.GetOr("UI context error occurred"), [])
    case Other(message) =>
      Formatted("Failed to tokenize payment method", message.GetOr("An unknown error occurred"), [])
  }

  /** The screen a report leads to: a raw HTTP body goes to `onError`
      directly, everything else through `showErrorResponse`. */
  function Present(report: ErrorReport): ErrorScreen {
    match report
    case RawResponse(title, body) => ErrorScreen(title, body)
    case Formatted(error, description, details) => ErrorScreen("Error", ErrorJson(error, description, details))
  }

  /** Hands a report to the `onError` callback: a raw response body
      directly, everything else through `showErrorResponse`. */
  method PresentReport(report: ErrorReport) returns (screen: ErrorScreen)
    ensures screen == Present(report)
  {
    match report {
      case RawResponse(title, body) =>
        screen := ErrorScreen(title, body);
      case Formatted(error, description, details) =>
        screen := ShowErrorResponse(error, description, details);
    }
  }

  /** `handleGr4vyError`: the failure is classified, then presented. */
  method HandleGr4vyError(failure: SdkFailure, gr4vyId: string) returns (screen: ErrorScreen)
    ensures screen == Present(ClassifyFailure(failure, gr4vyId))
  {
    screen := PresentReport(ClassifyFailure(failure, gr4vyId));
  }

  // ---------------------------------------------------------------- properties

  /** The network branch checks its substrings in a fixed priority: a
      resolve-host message wins over "timeout", which wins over "No address
      associated with hostname"; every outcome carries exactly one stable
      `error_code`, and only "cannotFindHost" carries the server URL. */
  lemma NetworkErrorCodes(errorMsg: string, gr4vyId: string)
    ensures var r := ClassifyNetworkError(errorMsg, gr4vyId);
      var resolve := Contains(errorMsg, "Cannot resolve host") || Contains(errorMsg, "Unable to resolve host");
      var timeout := Contains(errorMsg, "timeout");
      var noAddress := Contains(errorMsg, "No address associated with hostname");
      && r.Formatted?
      && (DetailValue(r.details, "error_code") == Some("cannotFindHost") <==> resolve || (!timeout && noAddress))
      && (DetailValue(r.details, "error_code") == Some("timedOut") <==> !resolve && timeout)
      && (DetailValue(r.details, "error_code") == Some("networkError") <==> !resolve && !timeout && !noAddress)
      && (DetailValue(r.details, "url").Some? <==> DetailValue(r.details, "error_code") == Some("cannotFindHost"))
      && (DetailValue(r.details, "url").Some? ==> DetailValue(r.details, "url") == Some(ServerUrl(gr4vyId)))
      && (DetailValue(r.details, "error_code") == Some("cannotFindHost") ==>
            r.error == "Cannot find server" && r.description == "Please check your Merchant ID (" + gr4vyId + ")")
      && (DetailValue(r.details, "error_code") == Some("timedOut") ==>
            r.error == "Request timed out" && r.description == "Please try again")
      && (DetailValue(r.details, "error_code") == Some("networkError") ==>
            r.error == "Network error" && r.description == errorMsg)
  {
  }

  /** Only an HTTP error that carries a non-empty body bypasses
      `showErrorResponse`; its title names the status and its body is the raw
      response. Everything else is shown under the title "Error", as a JSON
      text that reads back as its `error`, `description` and extra fields. */
  lemma ErrorScreenShape(failure: SdkFailure, gr4vyId: string)
    ensures var report := ClassifyFailure(failure, gr4vyId);
      var screen := Present(report);
      && (report.RawResponse? <==> failure.HttpError? && failure.responseData.Some? && failure.responseData.value != [])
      && (report.RawResponse? ==>
           screen == ErrorScreen("Error Response (Status: " + IntString(failure.statusCode) + ")", failure.responseData.value))
      && (report.Formatted? ==> screen.title == "Error")
      && (report.Formatted? && QuoteFree(report.error) && QuoteFree(report.description)
          && (forall i :: 0 <= i < |report.details| ==> QuoteFree(report.details[i].0) && QuoteFree(report.details[i].1))
          ==> ReadErrorJson(screen.body) == Some([("error", report.error), ("description", report.description)] + report.details))
  {
    var report := ClassifyFailure(failure, gr4vyId);
    if report.Formatted? && QuoteFree(report.error) && QuoteFree(report.description)
      && (forall i :: 0 <= i < |report.details| ==> QuoteFree(report.details[i].0) && QuoteFree(report.details[i].1))
    {
      ErrorJsonReadsBack(report.error, report.description, report.details);
    }
  }
}
