/** The fields screen's own state: the form values it keeps in `var`s, the
    click and edit handlers that change them, the copy-in from the saved
    preferences, and the PUT button that hands the form to
    `sendTokenizeRequest`. Every preference save a handler launches is
    recorded, in order, in a write log. */
module FieldsScreen {
  import opened KotlinText
  import opened FieldOptions
  import opened ErrorDisplay
  import opened Tokenize

  // ---------------------------------------------------------------- values

  /** The preference entries of the fields screen. */
  datatype PrefKey =
    | FieldsCheckoutSessionId | FieldsPaymentMethodType | FieldsCardNumber
    | FieldsExpirationDate | FieldsSecurityCode | FieldsPaymentMethodId
    | FieldsIdSecurityCode | FieldsTestCard | FieldsTheme | FieldsSdkMaxTimeout

  /** One `preferencesRepository.save...` call: the entry and the text written. */
  datatype Save = Save(key: PrefKey, value: string)

  /** What the screen collects from the preferences store; the defaults are
      the `initial` values of the collected flows. */
  datatype SavedFields = SavedFields(
    checkoutSessionId: string, paymentMethodType: string,
    cardNumber: string, expirationDate: string, securityCode: string,
    paymentMethodId: string, idSecurityCode: string,
    authenticate: bool, testCard: string, theme: string, sdkMaxTimeout: string)

  /** The admin settings the screen passes through unchanged; `timeout` is
      the admin timeout already read as a number, if it is one. */
  datatype AdminSettings = AdminSettings(
    gr4vyId: string, apiToken: string, serverEnvironment: string, timeout: Option<real>)

  /** The local state of the screen, one component per `var`. */
  datatype Form = Form(
    checkoutSessionId: string, paymentMethodType: PaymentMethodType,
    cardNumber: string, expirationDate: string, securityCode: string,
    paymentMethodId: string, idSecurityCode: string, isLoading: bool,
    authenticate: bool, testCard: TestCard, theme: ThemeOption, sdkMaxTimeout: string)

  /** The `remember { mutableStateOf(...) }` initial values. */
  const InitialForm: Form :=
    Form("", CARD, "", "", "", "", "", false, true, CUSTOM, NONE, "5")

  /** The response screen the PUT button leads to. */
  datatype Navigation = Navigation(title: string, body: string)

  // ---------------------------------------------------------------- transitions

  /** Choosing an entry of the test-card menu. */
  function WithTestCard(f: Form, testCard: TestCard): Form {
    if testCard != CUSTOM then
      f.(testCard := testCard, cardNumber := testCard.CardNumber(),
         expirationDate := testCard.ExpirationDate(), securityCode := testCard.Cvv())
    else f.(testCard := testCard)
  }

  /** The saves the test-card menu launches. */
  function TestCardSaves(testCard: TestCard): seq<Save> {
    if testCard != CUSTOM then
      [Save(FieldsTestCard, testCard.RawValue()), Save(FieldsCardNumber, testCard.CardNumber()),
       Save(FieldsExpirationDate, testCard.ExpirationDate()), Save(FieldsSecurityCode, testCard.Cvv())]
    else [Save(FieldsTestCard, testCard.RawValue())]
  }

  /** The "Clear Form" button. */
  function Cleared(f: Form): Form {
    f.(testCard := CUSTOM, cardNumber := "", expirationDate := "", securityCode := "")
  }

  const ClearFormSaves: seq<Save> :=
    [Save(FieldsTestCard, "custom"), Save(FieldsCardNumber, ""),
     Save(FieldsExpirationDate, ""), Save(FieldsSecurityCode, "")]

  /** `value.filter { it.isDigit() }.take(2)`: the SDK max-timeout field
      keeps at most the first two digits typed. */
  function FilterSdkMaxTimeout(value: string): (r: string)
    ensures |r| <= 2
    ensures forall i :: 0 <= i < |r| ==> IsDigit(r[i])
    ensures |r| <= |DigitsOf(value)| && r == DigitsOf(value)[..|r|]
    ensures |r| < 2 ==> r == DigitsOf(value)
  {
    var digits := DigitsOf(value);
    if |digits| <= 2 then digits else digits[..2]
  }

  /** The `LaunchedEffect` that copies the collected preferences into the
      local state: an empty payment-method type means CARD, and the three
      option fields go through their lookups. The loading flag is not a
      preference. */
  function Loaded(f: Form, saved: SavedFields): Form {
    Form(saved.checkoutSessionId,
         if saved.paymentMethodType != "" then PaymentMethodTypeFromValue(saved.paymentMethodType) else CARD,
         saved.cardNumber, saved.expirationDate, saved.securityCode,
         saved.paymentMethodId, saved.idSecurityCode, f.isLoading, saved.authenticate,
         TestCardFromRawValue(saved.testCard), ThemeOptionFromRawValue(saved.theme), saved.sdkMaxTimeout)
  }

  /** The preferences after one save: the entry written holds the new text. */
  function Stored(saved: SavedFields, save: Save): SavedFields {
    match save.key
    case FieldsCheckoutSessionId => saved.(checkoutSessionId := save.value)
    case FieldsPaymentMethodType => saved.(paymentMethodType := save.value)
    case FieldsCardNumber => saved.(cardNumber := save.value)
    case FieldsExpirationDate => saved.(expirationDate := save.value)
    case FieldsSecurityCode => saved.(securityCode := save.value)
    case FieldsPaymentMethodId => saved.(paymentMethodId := save.value)
    case FieldsIdSecurityCode => saved.(idSecurityCode := save.value)
    case FieldsTestCard => saved.(testCard := save.value)
    case FieldsTheme => saved.(theme := save.value)
    case FieldsSdkMaxTimeout => saved.(sdkMaxTimeout := save.value)
  }

  /** The preferences after a run of saves, applied in order, the last
      write to an entry winning. */
  function StoredAll(saved: SavedFields, saves: seq<Save>): SavedFields
    decreases |saves|
  {
    if saves == [] then saved else StoredAll(Stored(saved, saves[0]), saves[1..])
  }

  /** The arguments the PUT button passes to `sendTokenizeRequest`. */
  function RequestOf(f: Form, admin: AdminSettings): Request {
    Request(admin.gr4vyId, admin.apiToken, admin.serverEnvironment, admin.timeout,
            f.checkoutSessionId, f.paymentMethodType, f.cardNumber, f.expirationDate, f.securityCode,
            f.paymentMethodId, f.idSecurityCode, f.authenticate, f.theme, f.sdkMaxTimeout)
  }

  /** `onLoading = { isLoading = it }` applied to each callback in turn. */
  function LoadingAfter(isLoading: bool, steps: seq<Step>): bool
    decreases |steps|
  {
    if steps == [] then isLoading
    else LoadingAfter(if steps[0].OnLoading? then steps[0].loading else isLoading, steps[1..])
  }

  /** Where a navigation callback leads: `onSuccess` to the "Complete"
      screen, `onError` to the screen with the title it was given. */
  function NavigationOf(step: Step): Navigation
    requires step.IsOutcome()
  {
    match step
    case OnSuccess(response) => Navigation("Complete", response)
    case OnError(title, body) => Navigation(title, body)
  }

  // ---------------------------------------------------------------- the screen

  class FieldsState {
    /** The local state, the screen's `var`s taken together. */
    var form: Form
    /** The preference saves launched so far, oldest first. */
    var saves: seq<Save>

    constructor ()
      ensures form == InitialForm && saves == []
    {
      form := InitialForm;
      saves := [];
    }

    /** The `LaunchedEffect` over the collected preferences. */
    method LoadSaved(saved: SavedFields)
      modifies this
      ensures form == Loaded(old(form), saved) && saves == old(saves)
    {
      var selectedPaymentMethodType := if saved.paymentMethodType != "" then PaymentMethodTypeFromValue(saved.paymentMethodType) else CARD;
      form := form.(checkoutSessionId := saved.checkoutSessionId, paymentMethodType := selectedPaymentMethodType,
                    cardNumber := saved.cardNumber, expirationDate := saved.expirationDate,
                    securityCode := saved.securityCode, paymentMethodId := saved.paymentMethodId,
                    idSecurityCode := saved.idSecurityCode, authenticate := saved.authenticate,
                    testCard := TestCardFromRawValue(saved.testCard), theme := ThemeOptionFromRawValue(saved.theme),
                    sdkMaxTimeout := saved.sdkMaxTimeout);
    }

    /** A click on an entry of the test-card menu: a preset overwrites the
      three card fields and saves all four entries; "Custom" only records
      the selection. */
    method SelectTestCard(testCard: TestCard)
      modifies this
      ensures form == WithTestCard(old(form), testCard)
      ensures saves == old(saves) + TestCardSaves(testCard)
    {
      form := form.(testCard := testCard);
      saves := saves + [Save(FieldsTestCard, testCard.RawValue())];
      if testCard != CUSTOM {
        form := form.(cardNumber := testCard.CardNumber(), expirationDate := testCard.ExpirationDate(),
                      securityCode := testCard.Cvv());
        saves := saves + [Save(FieldsCardNumber, testCard.CardNumber()),
                          Save(FieldsExpirationDate, testCard.ExpirationDate()), Save(FieldsSecurityCode, testCard.Cvv())];
      }
    }

    /** The "Clear Form" button, shown while a preset is selected. */
    method ClearForm()
      requires form.testCard != CUSTOM
      modifies this
      ensures form == Cleared(old(form))
      ensures saves == old(saves) + ClearFormSaves
    {
      form := form.(testCard := CUSTOM, cardNumber := "", expirationDate := "", securityCode := "");
      saves := saves + [Save(FieldsTestCard, CUSTOM.RawValue()), Save(FieldsCardNumber, ""),
                        Save(FieldsExpirationDate, ""), Save(FieldsSecurityCode, "")];
    }

    /** An edit of the SDK max-timeout field. */
    method ChangeSdkMaxTimeout(value: string)
      modifies this
      ensures form == old(form).(sdkMaxTimeout := FilterSdkMaxTimeout(value))
      ensures saves == old(saves) + [Save(FieldsSdkMaxTimeout, FilterSdkMaxTimeout(value))]
    {
      var filtered := FilterSdkMaxTimeout(value);
      form := form.(sdkMaxTimeout := filtered);
      saves := saves + [Save(FieldsSdkMaxTimeout, filtered)];
    }

    /** The PUT button, enabled only while no request is loading: the form
      and the admin settings go to `sendTokenizeRequest`, whose callbacks
      set the loading flag and pick the response screen. */
    method Submit(admin: AdminSettings, sdk: Sdk) returns (trace: seq<Step>, navigation: Navigation)
      requires !form.isLoading
      modifies this
      ensures trace == [OnLoading(true)] + RequestSteps(RequestOf(old(form), admin), sdk) + [OnLoading(false)]
      ensures |trace| >= 3 && trace[|trace| - 2].IsOutcome()
      ensures navigation == NavigationOf(trace[|trace| - 2])
      ensures form == old(form).(isLoading := LoadingAfter(old(form.isLoading), trace))
      ensures !form.isLoading && saves == old(saves)
    {
      var req := RequestOf(form, admin);
      trace := SendTokenizeRequest(req, sdk);
      OneOutcome(req, sdk);
      navigation := NavigationOf(trace[|trace| - 2]);
      LoadingCleared(form.isLoading, trace);
      form := form.(isLoading := LoadingAfter(form.isLoading, trace));
    }
  }

  // ---------------------------------------------------------------- properties

  /** Choosing a preset fills number, expiration and security code with
      exactly that preset's triple, and a card submission then carries that
      triple: none of it is blank or trimmed away. */
  lemma PresetFillsCard(f: Form, testCard: TestCard, admin: AdminSettings)
    requires testCard != CUSTOM
    ensures var g := WithTestCard(f, testCard);
      && g.testCard == testCard
      && (g.cardNumber, g.expirationDate, g.securityCode) == (testCard.CardNumber(), testCard.ExpirationDate(), testCard.Cvv())
      && (g.paymentMethodType == CARD ==>
            PaymentMethodOf(RequestOf(g, admin)) == Card(testCard.CardNumber(), testCard.ExpirationDate(), Some(testCard.Cvv())))
  {
    PresetDataNonBlank(testCard);
    var c := testCard.CardNumber();
    var e := testCard.ExpirationDate();
    var v := testCard.Cvv();
    assert !IsWhitespace(c[0]) && !IsWhitespace(c[|c| - 1]);
    assert !IsWhitespace(e[0]) && !IsWhitespace(e[|e| - 1]);
    assert !IsWhitespace(v[0]) && !IsWhitespace(v[|v| - 1]);
    TrimUntouched(c);
    TrimUntouched(e);
    TrimUntouched(v);
  }

  /** Choosing "Custom" changes only the selection: whatever a preset or the
      user put in the card fields stays. */
  lemma CustomKeepsCardFields(f: Form, testCard: TestCard)
    ensures var g := WithTestCard(WithTestCard(f, testCard), CUSTOM);
      && g.testCard == CUSTOM
      && (testCard != CUSTOM ==>
            (g.cardNumber, g.expirationDate, g.securityCode) == (testCard.CardNumber(), testCard.ExpirationDate(), testCard.Cvv()))
      && (testCard == CUSTOM ==> g == f.(testCard := CUSTOM))
  {
  }

  /** After "Clear Form" the selection is "Custom", the three card fields
      are empty, and a card submission carries an empty number and
      expiration and no security code. */
  lemma ClearFormEmptiesCard(f: Form, admin: AdminSettings)
    ensures var g := Cleared(f);
      && g.testCard == CUSTOM && g.cardNumber == "" && g.expirationDate == "" && g.securityCode == ""
      && (g.paymentMethodType == CARD ==> PaymentMethodOf(RequestOf(g, admin)) == Card("", "", None))
  {
    TrimUntouched("");
  }

  /** Reading a filtered field again changes nothing. */
  lemma {:induction false} FilterSdkMaxTimeoutIdempotent(value: string)
    ensures FilterSdkMaxTimeout(FilterSdkMaxTimeout(value)) == FilterSdkMaxTimeout(value)
  {
    var r := FilterSdkMaxTimeout(value);
    DigitsOfDigits(r);
  }

  /** A field that went through the filter reaches the 3DS call as 5 when
      empty and otherwise as its number raised to at least 5: at most two
      digits never need the upper bound of 99. */
  lemma FilteredTimeoutMinutes(value: string)
    ensures var r := FilterSdkMaxTimeout(value);
      && DigitsValue(r).Some? && DigitsValue(r).value < 100
      && ChallengeTimeout(r) == (if r == [] then 5
                                 else if DigitsValue(r).value < 5 then 5
                                 else DigitsValue(r).value)
  {
    var r := FilterSdkMaxTimeout(value);
    ShortDigitsToInt(r);
    TrimDigits(r);
  }

  /** Loading the preferences back after a handler's saves gives the state
      the handler left: the write log and the local state agree, as long as
      they agreed before. */
  lemma ReloadAfterTestCard(f: Form, saved: SavedFields, testCard: TestCard)
    requires Loaded(f, saved) == f
    ensures Loaded(WithTestCard(f, testCard), StoredAll(saved, TestCardSaves(testCard))) == WithTestCard(f, testCard)
  {
    TestCardRoundTrip(testCard);
    if testCard != CUSTOM {
      StoredCardEntries(saved, testCard.RawValue(), testCard.CardNumber(), testCard.ExpirationDate(), testCard.Cvv());
    } else {
      assert TestCardSaves(testCard)[1..] == [];
    }
  }

  lemma ReloadAfterClearForm(f: Form, saved: SavedFields)
    requires Loaded(f, saved) == f
    ensures Loaded(Cleared(f), StoredAll(saved, ClearFormSaves)) == Cleared(f)
  {
    TestCardRoundTrip(CUSTOM);
    StoredCardEntries(saved, "custom", "", "", "");
  }

  /** The four saves of a card-filling handler write exactly those four entries. */
  lemma StoredCardEntries(saved: SavedFields, testCard: string, cardNumber: string, expirationDate: string, cvv: string)
    ensures StoredAll(saved, [Save(FieldsTestCard, testCard), Save(FieldsCardNumber, cardNumber),
                              Save(FieldsExpirationDate, expirationDate), Save(FieldsSecurityCode, cvv)])
      == saved.(testCard := testCard, cardNumber := cardNumber, expirationDate := expirationDate, securityCode := cvv)
  {
    var saves := [Save(FieldsTestCard, testCard), Save(FieldsCardNumber, cardNumber),
                  Save(FieldsExpirationDate, expirationDate), Save(FieldsSecurityCode, cvv)];
    var s1 := Stored(saved, saves[0]);
    var s2 := Stored(s1, saves[1]);
    var s3 := Stored(s2, saves[2]);
    var s4 := Stored(s3, saves[3]);
    assert StoredAll(saved, saves) == StoredAll(s1, saves[1..]);
    assert StoredAll(s1, saves[1..]) == StoredAll(s2, saves[2..]);
    assert StoredAll(s2, saves[2..]) == StoredAll(s3, saves[3..]);
    assert StoredAll(s3, saves[3..]) == StoredAll(s4, saves[4..]);
    assert saves[4..] == [];
  }

  lemma ReloadAfterSdkMaxTimeout(f: Form, saved: SavedFields, value: string)
    requires Loaded(f, saved) == f
    ensures var filtered := FilterSdkMaxTimeout(value);
      Loaded(f.(sdkMaxTimeout := filtered), StoredAll(saved, [Save(FieldsSdkMaxTimeout, filtered)]))
        == f.(sdkMaxTimeout := filtered)
  {
    var saves := [Save(FieldsSdkMaxTimeout, FilterSdkMaxTimeout(value))];
    assert saves[1..] == [];
  }

  /** Applying the callbacks of a submission from any starting value: the
      loading flag is on after the first callback and stays on until the
      last, which turns it off. */
  lemma LoadingCleared(isLoading: bool, trace: seq<Step>)
    requires |trace| >= 2 && trace[0] == OnLoading(true) && trace[|trace| - 1] == OnLoading(false)
    requires forall i :: 0 < i < |trace| - 1 ==> !trace[i].OnLoading?
    ensures forall k :: 1 <= k < |trace| ==> LoadingAfter(isLoading, trace[..k])
    ensures !LoadingAfter(isLoading, trace)
  {
    forall k | 1 <= k < |trace| ensures LoadingAfter(isLoading, trace[..k]) {
      assert trace[..k][0] == OnLoading(true);
      assert trace[..k][1..] == trace[1..k];
      LoadingUnchanged(true, trace[1..k]);
    }
    assert trace == trace[..|trace| - 1] + [OnLoading(false)];
    LoadingLast(isLoading, trace[..|trace| - 1], false);
  }

  /** Steps that are not loading callbacks leave the flag alone. */
  lemma {:induction false} LoadingUnchanged(isLoading: bool, steps: seq<Step>)
    requires forall i :: 0 <= i < |steps| ==> !steps[i].OnLoading?
    ensures LoadingAfter(isLoading, steps) == isLoading
    decreases |steps|
  {
    if steps != [] {
      LoadingUnchanged(isLoading, steps[1..]);
    }
  }

  /** A last loading callback decides the flag. */
  lemma {:induction false} LoadingLast(isLoading: bool, steps: seq<Step>, last: bool)
    ensures LoadingAfter(isLoading, steps + [OnLoading(last)]) == last
    decreases |steps|
  {
    if steps == [] {
      assert [OnLoading(last)][1..] == [];
    } else {
      assert (steps + [OnLoading(last)])[1..] == steps[1..] + [OnLoading(last)];
      LoadingLast(if steps[0].OnLoading? then steps[0].loading else isLoading, steps[1..], last);
    }
  }

  /** From any form, a submission always ends on a response screen
      with the loading flag down, and the response screen is the outcome of
      the request built from the form. */
  lemma SubmitEndsNotLoading(f: Form, admin: AdminSettings, sdk: Sdk)
    ensures var steps := RequestSteps(RequestOf(f, admin), sdk);
      var trace := [OnLoading(true)] + steps + [OnLoading(false)];
      && trace[|trace| - 2] == steps[|steps| - 1] && steps[|steps| - 1].IsOutcome()
      && !LoadingAfter(f.isLoading, trace)
  {
    var req := RequestOf(f, admin);
    var steps := RequestSteps(req, sdk);
    OneOutcome(req, sdk);
    var trace := [OnLoading(true)] + steps + [OnLoading(false)];
    LoadingCleared(f.isLoading, trace);
  }
}
