# Tokenization form controller of the Gr4vy Kotlin client app

This project models the form controller inside the fields screen of the
Gr4vy Android sample app (`FieldsScreen.kt`). It is a Dafny model, and the
properties below are proved about it. The model covers four pieces:

- **Option lookups.** `PaymentMethodType.fromValue`, `ThemeOption.fromRawValue`
  and `TestCard.fromRawValue` search the closed enums and fall back to
  CARD, NONE and CUSTOM (module `FieldOptions`, `options.dfy`).
- **Form-state transitions.** Module `FieldsScreen` (`fields.dfy`) models:
  - the screen's local state as one `Form` value held by the class `FieldsState`;
  - the copy-in from the saved preferences;
  - the test-card menu, the "Clear Form" button and the digit filter of the SDK max-timeout field;
  - the PUT button.
  Each preference save a handler launches is appended to a write log, `saves`.
- **The submit pipeline `sendTokenizeRequest`** (module `Tokenize`, `tokenize.dfy`).
  It is a method that returns the trace of callbacks and SDK calls it makes.
  It is proved equal to a specification function, `RequestSteps`.
  The SDK is an input value, `Sdk`. It says whether the client constructor
  throws, whether building the payload throws, and how each tokenize call
  ends: a raw body, a 3DS result, or one of the typed failures.
- **Error display** (module `ErrorDisplay`, `errors.dfy`).
  - `showErrorResponse` builds its JSON text with a loop over the extra fields.
  - `handleGr4vyError` is a method proved equal to a classification
    function, `ClassifyFailure`, followed by `Present`.
  - A reader for the error layout is the inverse of the formatter. The
    round trip shows that the fields come out in the order
    `error`, `description`, extras.

Module `KotlinText` (`text.dfy`) gives the exact Kotlin behaviour the
screen relies on:
- `Char.isWhitespace`, `String.trim` and `isBlank`;
- `contains`;
- `Char.isDigit`, `toIntOrNull` and `Int.toString`.

Two behaviours of the code are easy to misread, and the model keeps them as written:
- `showErrorResponse` always calls `onError` with the title "Error". The
  titles "Configuration Error", "Validation Error" and the like appear only
  as the JSON `error` field.
- The raw-body HTTP case is the only error whose screen title is not
  "Error".

## Model

| member | source | states |
|---|---|---|
| FieldOptions.FindSpec | src/main/java/com/gr4vy/gr4vy_kotlin_client_app/ui/screens/FieldsScreen.kt:71 | `values().find`: the result is an entry whose key matches, with no matching entry before it; the result is absent exactly when no entry matches |
| FieldOptions.PaymentMethodTypeFromValueSpec | src/main/java/com/gr4vy/gr4vy_kotlin_client_app/ui/screens/FieldsScreen.kt:65-72 | `fromValue` returns the entry stored as the input, or CARD when no entry is stored that way |
| FieldOptions.AllPaymentMethodTypesListed | src/main/java/com/gr4vy/gr4vy_kotlin_client_app/ui/screens/FieldsScreen.kt:65-67 | `values()` lists every payment method type |
| FieldOptions.PaymentMethodTypeRoundTrip | src/main/java/com/gr4vy/gr4vy_kotlin_client_app/ui/screens/FieldsScreen.kt:65-72 | `fromValue(t.value) == t` for every entry |
| FieldOptions.ThemeOptionFromRawValueSpec | src/main/java/com/gr4vy/gr4vy_kotlin_client_app/ui/screens/FieldsScreen.kt:76-85 | `fromRawValue` returns the entry stored as the input, or NONE when no entry is stored that way |
| FieldOptions.AllThemeOptionsListed | src/main/java/com/gr4vy/gr4vy_kotlin_client_app/ui/screens/FieldsScreen.kt:76-80 | `values()` lists every theme |
| FieldOptions.ThemeOptionRoundTrip | src/main/java/com/gr4vy/gr4vy_kotlin_client_app/ui/screens/FieldsScreen.kt:76-85 | `fromRawValue(t.rawValue) == t` for every theme |
| FieldOptions.TestCardFromRawValueSpec | src/main/java/com/gr4vy/gr4vy_kotlin_client_app/ui/screens/FieldsScreen.kt:89-115 | `fromRawValue` returns the preset stored as the input, or CUSTOM when no preset is stored that way |
| FieldOptions.AllTestCardsListed | src/main/java/com/gr4vy/gr4vy_kotlin_client_app/ui/screens/FieldsScreen.kt:96-110 | `values()` lists all eleven presets |
| FieldOptions.TestCardRawValueInjective | src/main/java/com/gr4vy/gr4vy_kotlin_client_app/ui/screens/FieldsScreen.kt:96-110 | distinct presets have distinct raw values |
| FieldOptions.TestCardRoundTrip | src/main/java/com/gr4vy/gr4vy_kotlin_client_app/ui/screens/FieldsScreen.kt:89-115 | `fromRawValue(t.rawValue) == t` for every preset |
| FieldOptions.PresetDataNonBlank | src/main/java/com/gr4vy/gr4vy_kotlin_client_app/ui/screens/FieldsScreen.kt:99-110 | every preset other than CUSTOM has a non-blank number, expiration date and CVV |
| FieldOptions.UiCustomization | src/main/java/com/gr4vy/gr4vy_kotlin_client_app/ui/screens/FieldsScreen.kt:1140-1145 | the 3DS UI customization is absent exactly for "No Theme" |
| FieldOptions.UiCustomizationInjective | src/main/java/com/gr4vy/gr4vy_kotlin_client_app/ui/screens/FieldsScreen.kt:1140-1145 | different themes give different customizations |
| KotlinText.TrimSpec | src/main/java/com/gr4vy/gr4vy_kotlin_client_app/ui/screens/FieldsScreen.kt:1058-1059 | `trim()` keeps the slice between two blank margins; neither end of the result is whitespace; the result is empty exactly when the input is blank |
| KotlinText.TrimEmpty | src/main/java/com/gr4vy/gr4vy_kotlin_client_app/ui/screens/FieldsScreen.kt:1061-1071 | `s.trim().isEmpty()` holds exactly when `s.isBlank()` |
| KotlinText.TrimTrim | src/main/java/com/gr4vy/gr4vy_kotlin_client_app/ui/screens/FieldsScreen.kt:1058 | trimming twice equals trimming once |
| KotlinText.TrimUntouched | src/main/java/com/gr4vy/gr4vy_kotlin_client_app/ui/screens/FieldsScreen.kt:1119-1121 | a string with no whitespace at either end trims to itself |
| KotlinText.ContainsIffSlice | src/main/java/com/gr4vy/gr4vy_kotlin_client_app/ui/screens/FieldsScreen.kt:1282 | `contains` holds exactly when some slice of the message equals the pattern |
| KotlinText.DigitsOf | src/main/java/com/gr4vy/gr4vy_kotlin_client_app/ui/screens/FieldsScreen.kt:645 | `filter { it.isDigit() }` keeps only digits and never lengthens the text |
| KotlinText.DigitsOfChar | src/main/java/com/gr4vy/gr4vy_kotlin_client_app/ui/screens/FieldsScreen.kt:645 | the filter keeps a single character exactly when `isDigit` holds for it |
| KotlinText.DigitsOfAppend | src/main/java/com/gr4vy/gr4vy_kotlin_client_app/ui/screens/FieldsScreen.kt:645 | filtering a concatenation is the concatenation of the filtered parts, so with `DigitsOfChar` the filter keeps exactly the digits, in order |
| KotlinText.DigitsOfDigits | src/main/java/com/gr4vy/gr4vy_kotlin_client_app/ui/screens/FieldsScreen.kt:645 | filtering a run of digits returns it unchanged |
| KotlinText.ToIntOrNull | src/main/java/com/gr4vy/gr4vy_kotlin_client_app/ui/screens/FieldsScreen.kt:1149 | a parsed value lies in the 32-bit `Int` range, and the empty string and a lone sign do not parse |
| KotlinText.DigitsValueSome | src/main/java/com/gr4vy/gr4vy_kotlin_client_app/ui/screens/FieldsScreen.kt:1149 | a text has a digit value exactly when every character is a decimal digit |
| KotlinText.ToIntOrNullUnsigned | src/main/java/com/gr4vy/gr4vy_kotlin_client_app/ui/screens/FieldsScreen.kt:1149 | a non-empty run of digits parses to its value when that is at most 2147483647, and to null otherwise |
| KotlinText.ToIntOrNullSigned | src/main/java/com/gr4vy/gr4vy_kotlin_client_app/ui/screens/FieldsScreen.kt:1149 | a `+` or `-` followed by a non-empty run of digits parses to the signed value when that lies in [-2147483648, 2147483647], and to null otherwise |
| KotlinText.ToIntOrNullNonDigit | src/main/java/com/gr4vy/gr4vy_kotlin_client_app/ui/screens/FieldsScreen.kt:1149 | any character that is not a digit, other than a leading sign, makes the parse null |
| KotlinText.ShortDigitsToInt | src/main/java/com/gr4vy/gr4vy_kotlin_client_app/ui/screens/FieldsScreen.kt:1149 | at most two digits parse to their value, which is below 100; the empty string parses to null |
| KotlinText.NaturalStringValue | src/main/java/com/gr4vy/gr4vy_kotlin_client_app/ui/screens/FieldsScreen.kt:1265 | reading back the decimal digits of `n` gives `n` |
| KotlinText.IntString | src/main/java/com/gr4vy/gr4vy_kotlin_client_app/ui/screens/FieldsScreen.kt:1265 | `Int.toString` parses back to the same `Int` |
| ErrorDisplay.ShowErrorResponse | src/main/java/com/gr4vy/gr4vy_kotlin_client_app/ui/screens/FieldsScreen.kt:1207-1226 | the loop over the extra fields builds exactly `ErrorJson`, and the screen title is always "Error" |
| ErrorDisplay.ExtraFieldsSnoc | src/main/java/com/gr4vy/gr4vy_kotlin_client_app/ui/screens/FieldsScreen.kt:1218-1220 | one more extra field appends exactly one `,\n  "key": "value"` line after the earlier ones |
| ErrorDisplay.ReadErrorJson | src/main/java/com/gr4vy/gr4vy_kotlin_client_app/ui/screens/FieldsScreen.kt:1213-1223 | the reader of the error layout returns only quote-free keys and values |
| ErrorDisplay.ReadMoreFieldsOf | src/main/java/com/gr4vy/gr4vy_kotlin_client_app/ui/screens/FieldsScreen.kt:1218-1222 | the extra-field lines read back as the same pairs, in insertion order |
| ErrorDisplay.ErrorJsonReadsBack | src/main/java/com/gr4vy/gr4vy_kotlin_client_app/ui/screens/FieldsScreen.kt:1213-1223 | when no value contains a quote, the JSON reads back as `error`, then `description`, then the extra pairs in order |
| ErrorDisplay.QuotedDescriptionCollides | src/main/java/com/gr4vy/gr4vy_kotlin_client_app/ui/screens/FieldsScreen.kt:1213-1221 | values are not escaped: a description followed by a quote, a comma, a line break and a `"k": "v` pair renders the same text as the shorter description with the extra field `k: v`, so two different reports can render the same text |
| ErrorDisplay.HttpErrorTitle | src/main/java/com/gr4vy/gr4vy_kotlin_client_app/ui/screens/FieldsScreen.kt:1262-1266 | the title is "Error Response (Status: N)" with N in decimal; the separate 400 branch gives the same text |
| ErrorDisplay.PresentReport | src/main/java/com/gr4vy/gr4vy_kotlin_client_app/ui/screens/FieldsScreen.kt:1254-1275 | a raw HTTP body goes to `onError` as it is, under its own title; every other report is shown through `showErrorResponse` |
| ErrorDisplay.HandleGr4vyError | src/main/java/com/gr4vy/gr4vy_kotlin_client_app/ui/screens/FieldsScreen.kt:1231-1355 | the screen shown for each failure variant is the classification of that failure, presented through `showErrorResponse` or as a raw body |
| ErrorDisplay.NetworkErrorCodes | src/main/java/com/gr4vy/gr4vy_kotlin_client_app/ui/screens/FieldsScreen.kt:1281-1320 | resolve-host messages beat "timeout", which beats "No address associated with hostname". Each outcome carries exactly its `error_code`. Only cannotFindHost carries the server URL `https://api.<id>.gr4vy.app`. cannotFindHost is titled "Cannot find server" with "Please check your Merchant ID (<id>)"; timedOut is "Request timed out" with "Please try again"; networkError is "Network error" with the message itself as the description |
| ErrorDisplay.ErrorScreenShape | src/main/java/com/gr4vy/gr4vy_kotlin_client_app/ui/screens/FieldsScreen.kt:1250-1275 | the raw body is shown exactly for an HTTP error with a non-empty body, under "Error Response (Status: N)"; every other error is titled "Error" and its JSON reads back as its fields |
| Tokenize.ServerFor | src/main/java/com/gr4vy/gr4vy_kotlin_client_app/ui/screens/FieldsScreen.kt:1076-1080 | the production server is chosen exactly for the text "production", case-sensitively and untrimmed; everything else gives the sandbox |
| Tokenize.ClientTimeout | src/main/java/com/gr4vy/gr4vy_kotlin_client_app/ui/screens/FieldsScreen.kt:1084-1109 | the client gets a timeout exactly when the parsed admin timeout is positive, and then that value |
| Tokenize.OptionalSecurityCode | src/main/java/com/gr4vy/gr4vy_kotlin_client_app/ui/screens/FieldsScreen.kt:1121-1128 | the security code is absent exactly when it is blank; otherwise it is the trimmed code, which is not blank |
| Tokenize.PaymentMethodOf | src/main/java/com/gr4vy/gr4vy_kotlin_client_app/ui/screens/FieldsScreen.kt:1116-1131 | CARD gives a card payload of trimmed number and expiration date; ID gives an id payload of the trimmed id; each carries the optional trimmed security code of its own field |
| Tokenize.ChallengeTimeout | src/main/java/com/gr4vy/gr4vy_kotlin_client_app/ui/screens/FieldsScreen.kt:1148-1153 | the challenge timeout is always in [5, 99]. Text that does not parse after trimming gives 5. A parsed value inside the range passes through; one outside it is clamped to the nearer bound |
| Tokenize.PlainResponse | src/main/java/com/gr4vy/gr4vy_kotlin_client_app/ui/screens/FieldsScreen.kt:1184-1191 | a blank body becomes `{"result": "OK"}` and any other body is passed on verbatim; what is shown is never blank |
| Tokenize.ThreeDSResponse | src/main/java/com/gr4vy/gr4vy_kotlin_client_app/ui/screens/FieldsScreen.kt:1166-1179 | the 3DS success text opens the `authentication` object and ends with the `tokenized` flag |
| Tokenize.CallTokenize | src/main/java/com/gr4vy/gr4vy_kotlin_client_app/ui/screens/FieldsScreen.kt:1136-1195 | the inner `try` makes the call chosen by `UsesThreeDS` and reports its one outcome |
| Tokenize.RunTokenize | src/main/java/com/gr4vy/gr4vy_kotlin_client_app/ui/screens/FieldsScreen.kt:1056-1198 | the body with its early returns produces exactly the specified steps `RequestSteps` |
| Tokenize.SendTokenizeRequest | src/main/java/com/gr4vy/gr4vy_kotlin_client_app/ui/screens/FieldsScreen.kt:1034-1202 | `onLoading(true)` comes first and `onLoading(false)` last on every path. The loading flag is touched nowhere else. Exactly one `onSuccess`/`onError` fires |
| Tokenize.ValidationShortCircuits | src/main/java/com/gr4vy/gr4vy_kotlin_client_app/ui/screens/FieldsScreen.kt:1058-1074 | a blank ID, then a blank token, then a blank session id each produce only their own error, in that order. The client is requested exactly when all three are filled, and then from the trimmed ID and token |
| Tokenize.OneOutcome | src/main/java/com/gr4vy/gr4vy_kotlin_client_app/ui/screens/FieldsScreen.kt:1054-1201 | every submission has exactly one navigation callback, as its last step, and no loading callback inside |
| Tokenize.TokenizePathChosen | src/main/java/com/gr4vy/gr4vy_kotlin_client_app/ui/screens/FieldsScreen.kt:1138 | the 3DS call is made exactly when the SDK is reached with a card and authentication on, and the plain call exactly when it is reached otherwise |
| Tokenize.ThreeDSCallArguments | src/main/java/com/gr4vy/gr4vy_kotlin_client_app/ui/screens/FieldsScreen.kt:1138-1163 | the 3DS call gets a timeout in [5, 99], authentication on, the trimmed session id, a card payload of trimmed fields and no UI customization exactly for "No Theme" |
| Tokenize.TokenizeOutcome | src/main/java/com/gr4vy/gr4vy_kotlin_client_app/ui/screens/FieldsScreen.kt:1166-1194 | the outcome after a tokenize call is the normalised plain body, the 3DS response text, or the `handleGr4vyError` screen of the failure with the trimmed ID |
| Tokenize.ConstructionFailures | src/main/java/com/gr4vy/gr4vy_kotlin_client_app/ui/screens/FieldsScreen.kt:1083-1113 | a client that cannot be built, or a payload that throws, ends the submission with its own error right after the client step, before any tokenize call |
| FieldsScreen.FilterSdkMaxTimeout | src/main/java/com/gr4vy/gr4vy_kotlin_client_app/ui/screens/FieldsScreen.kt:645 | the filtered field holds only digits, at most two, and is the first digits typed, or all of them when there are fewer than two |
| FieldsScreen.FilterSdkMaxTimeoutIdempotent | src/main/java/com/gr4vy/gr4vy_kotlin_client_app/ui/screens/FieldsScreen.kt:643-646 | filtering the filtered field again changes nothing |
| FieldsScreen.FilteredTimeoutMinutes | src/main/java/com/gr4vy/gr4vy_kotlin_client_app/ui/screens/FieldsScreen.kt:1148-1150 | a filtered field reaches the 3DS call as 5 when empty or below 5, and otherwise as its own value; the upper bound 99 is never needed |
| FieldsScreen.FieldsState.constructor | src/main/java/com/gr4vy/gr4vy_kotlin_client_app/ui/screens/FieldsScreen.kt:478-491 | the local state starts with the `remember` initial values and an empty write log |
| FieldsScreen.FieldsState.LoadSaved | src/main/java/com/gr4vy/gr4vy_kotlin_client_app/ui/screens/FieldsScreen.kt:494-514 | the collected preferences are copied in through the three lookups, an empty type meaning CARD; the loading flag and the write log stay |
| FieldsScreen.FieldsState.SelectTestCard | src/main/java/com/gr4vy/gr4vy_kotlin_client_app/ui/screens/FieldsScreen.kt:806-826 | the new state is `WithTestCard` of the old one, and the saves are the preset's four entries, or only the selection for CUSTOM |
| FieldsScreen.FieldsState.ClearForm | src/main/java/com/gr4vy/gr4vy_kotlin_client_app/ui/screens/FieldsScreen.kt:835-848 | offered only while a preset is selected, the button gives `Cleared` of the old state and saves "custom" and three empty fields |
| FieldsScreen.FieldsState.ChangeSdkMaxTimeout | src/main/java/com/gr4vy/gr4vy_kotlin_client_app/ui/screens/FieldsScreen.kt:643-650 | the field and its saved entry both become the filtered text |
| FieldsScreen.FieldsState.Submit | src/main/java/com/gr4vy/gr4vy_kotlin_client_app/ui/screens/FieldsScreen.kt:979-1025 | the enabled PUT button sends the form. It leads to the screen of the one outcome and leaves the flag down and the form otherwise as it was |
| FieldsScreen.PresetFillsCard | src/main/java/com/gr4vy/gr4vy_kotlin_client_app/ui/screens/FieldsScreen.kt:810-813 | a preset sets number, expiration and CVV to exactly its triple, and a card submission then carries that triple untouched by trimming |
| FieldsScreen.CustomKeepsCardFields | src/main/java/com/gr4vy/gr4vy_kotlin_client_app/ui/screens/FieldsScreen.kt:807-825 | choosing CUSTOM changes only the selection; the card fields a preset filled in stay |
| FieldsScreen.ClearFormEmptiesCard | src/main/java/com/gr4vy/gr4vy_kotlin_client_app/ui/screens/FieldsScreen.kt:837-841 | after Clear Form the selection is CUSTOM and the three fields are empty; a card submission then has no security code |
| FieldsScreen.ReloadAfterTestCard | src/main/java/com/gr4vy/gr4vy_kotlin_client_app/ui/screens/FieldsScreen.kt:815-824 | loading the preferences back after the menu's saves reproduces the state the menu left |
| FieldsScreen.ReloadAfterClearForm | src/main/java/com/gr4vy/gr4vy_kotlin_client_app/ui/screens/FieldsScreen.kt:842-847 | loading the preferences back after Clear Form's saves reproduces the cleared state |
| FieldsScreen.ReloadAfterSdkMaxTimeout | src/main/java/com/gr4vy/gr4vy_kotlin_client_app/ui/screens/FieldsScreen.kt:646-649 | loading back after a timeout edit reproduces the filtered field |
| FieldsScreen.LoadingCleared | src/main/java/com/gr4vy/gr4vy_kotlin_client_app/ui/screens/FieldsScreen.kt:1012 | with `onLoading = { isLoading = it }`, the flag is up after the first callback and until the last, which lowers it |
| FieldsScreen.SubmitEndsNotLoading | src/main/java/com/gr4vy/gr4vy_kotlin_client_app/ui/screens/FieldsScreen.kt:1012-1024 | every submission ends on a response screen from its one outcome, with the loading flag down |

## Left out

- Compose layout, scaffolding, dropdown expand/collapse state and previews are UI and are not modelled.
- Persistence:
  - the coroutine launches and the asynchronous `PreferencesRepository` writes become an ordered write log (`saves`);
  - concurrent or reordered completion of those writes is not modelled;
  - the collected flows are the input `SavedFields`.
- The other text-field and switch handlers store their input and save it, with no logic of their own, and are not modelled: checkout session id, card fields, payment method id and code, the type and theme menus, and the authenticate switch.
- The Gr4vy SDK itself is an input value `Sdk`: client construction, `tokenize`, and the 3DS challenge.
- The admin timeout parse (`toDoubleOrNull`, floating point) is an input `Option<real>`. Only the "positive" test is modelled.
- The three theme builders are static colour and font tables. A theme is a tag (`ThemeBundle`).
- `Log.e` calls are not modelled.
- The `context as? Activity` cast and its "UI Context Error" screen (lines 983-994) are not modelled.
- `responseData` is taken as already-decoded text; UTF-8 decoding is not modelled.
- Kotlin `Char` is a UTF-16 code unit. The model's characters are Unicode scalar values.
  - `isDigit` covers the decimal-digit blocks of the Basic Multilingual Plane.
  - `isWhitespace` covers the JVM whitespace set.
- Tokenize.ThreeDSResponse: the contract states only the fixed opening and the closing `tokenized` part. It does not state the text of the authentication fields.
- Tokenize.ThreeDSResponse: the `buildString` appends of the 3DS response are written as one function, not as a sequence of appends.
- Tokenize.SendTokenizeRequest: the `onSuccess` and `onError` callbacks are taken not to throw. In the source, an `onSuccess` that throws (lines 1181, 1191) is caught at lines 1193-1194 and followed by a second, `onError`, callback; an `onError` that throws inside `handleGr4vyError` reaches the outer catch at lines 1197-1198, which calls `onError` again. The exactly-one-outcome property holds only for callbacks that return normally. The screen's `onLoading` (line 1012) does. Its `onError` and `onSuccess` (lines 1013-1019) do as long as `onNavigateToResponse`, which the caller of `FieldsScreen` supplies (line 447), returns normally; that caller is not part of this model.
- Tokenize.ChallengeTimeout: the `catch` that falls back to 5 is not modelled. `toIntOrNull` and `coerceIn` do not throw, so that branch cannot run.
- The error JSON writes keys and values without escaping. `QuotedDescriptionCollides` shows the consequence: two different reports can render the same text. No corrected formatter is modelled, because the screen only displays the text.
- `additionalDetails` is a Kotlin `Map` iterated in insertion order. It is modelled as a sequence of key-value pairs. The call sites never repeat a key, so the model does not enforce key uniqueness.
