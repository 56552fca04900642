/** The three closed option sets of the fields screen, each stored in the
    preferences by a raw string and read back with `values().find { ... }`
    falling back to a default. */
module FieldOptions {
  import opened KotlinText

  /** `values().find { key(it) == s }`: the first entry, in declaration
      order, whose key is `s`. */
  function Find<T>(entries: seq<T>, key: T -> string, s: string): Option<T> {
    if entries == [] then None
    else if key(entries[0]) == s then Some(entries[0])
    else Find(entries[1..], key, s)
  }

  /** `Find` gives an entry whose key is `s`, and none before it has that
      key; it gives None only when no entry has that key. */
  lemma {:induction false} FindSpec<T>(entries: seq<T>, key: T -> string, s: string)
    ensures var r := Find(entries, key, s);
      && (r.Some? ==> exists i :: 0 <= i < |entries| && entries[i] == r.value && key(r.value) == s
                        && forall j :: 0 <= j < i ==> key(entries[j]) != s)
      && (r.None? <==> forall e :: e in entries ==> key(e) != s)
    decreases |entries|
  {
    if entries != [] && key(entries[0]) != s {
      FindSpec(entries[1..], key, s);
      var r := Find(entries, key, s);
      if r.Some? {
        var i :| 0 <= i < |entries[1..]| && entries[1..][i] == r.value && key(r.value) == s
                 && forall j :: 0 <= j < i ==> key(entries[1..][j]) != s;
        assert entries[i + 1] == r.value;
        forall j | 0 <= j < i + 1 ensures key(entries[j]) != s {
          if j > 0 { assert entries[j] == entries[1..][j - 1]; }
        }
      } else {
        forall e | e in entries ensures key(e) != s {
          if e != entries[0] { assert e in entries[1..]; }
        }
      }
    } else if entries != [] {
      assert entries[0] == Find(entries, key, s).value;
    }
  }

  // ---------------------------------------------------------------- payment method type

  datatype PaymentMethodType = CARD | ID {
    function Value(): string {
      match this
      case CARD => "card"
      case ID => "id"
    }
  }

  const PaymentMethodTypes: seq<PaymentMethodType> := [CARD, ID]

  /** `PaymentMethodType.fromValue`: the entry stored as `value`, or CARD
      when no entry is. */
  function PaymentMethodTypeFromValue(value: string): PaymentMethodType {
    match Find(PaymentMethodTypes, (t: PaymentMethodType) => t.Value(), value)
    case Some(t) => t
    case None => CARD
  }

  /** The lookup gives the entry stored as `value`, or CARD exactly
      when no entry is stored that way. */
  lemma PaymentMethodTypeFromValueSpec(value: string)
    ensures var r := PaymentMethodTypeFromValue(value);
      || r.Value() == value
      || (r == CARD && forall t: PaymentMethodType :: t.Value() != value)
  {
    var key := (t: PaymentMethodType) => t.Value();
    FindSpec(PaymentMethodTypes, key, value);
    if Find(PaymentMethodTypes, key, value).None? {
      AllPaymentMethodTypesListed();
      forall t: PaymentMethodType ensures t.Value() != value {
        assert t in PaymentMethodTypes;
        assert key(t) == t.Value();
      }
    }
  }

  lemma AllPaymentMethodTypesListed()
    ensures forall t: PaymentMethodType :: t in PaymentMethodTypes
  {
    forall t: PaymentMethodType ensures t in PaymentMethodTypes {
      match t
      case CARD => assert PaymentMethodTypes[0] == t;
      case ID => assert PaymentMethodTypes[1] == t;
    }
  }

  lemma PaymentMethodTypeRoundTrip(t: PaymentMethodType)
    ensures PaymentMethodTypeFromValue(t.Value()) == t
  {
    PaymentMethodTypeFromValueSpec(t.Value());
  }

  // ---------------------------------------------------------------- 3DS theme

  datatype ThemeOption = NONE | RED_BLUE | ORANGE_PURPLE | GREEN_YELLOW {
    function RawValue(): string {
      match this
      case NONE => "none"
      case RED_BLUE => "redBlue"
      case ORANGE_PURPLE => "orangePurple"
      case GREEN_YELLOW => "greenYellow"
    }
  }

  const ThemeOptions: seq<ThemeOption> := [NONE, RED_BLUE, ORANGE_PURPLE, GREEN_YELLOW]

  /** `ThemeOption.fromRawValue`: the entry stored as `value`, or NONE when
      no entry is. */
  function ThemeOptionFromRawValue(value: string): ThemeOption {
    match Find(ThemeOptions, (t: ThemeOption) => t.RawValue(), value)
    case Some(t) => t
    case None => NONE
  }

  /** The lookup gives the entry stored as `value`, or NONE exactly
      when no entry is stored that way. */
  lemma ThemeOptionFromRawValueSpec(value: string)
    ensures var r := ThemeOptionFromRawValue(value);
      || r.RawValue() == value
      || (r == NONE && forall t: ThemeOption :: t.RawValue() != value)
  {
    var key := (t: ThemeOption) => t.RawValue();
    FindSpec(ThemeOptions, key, value);
    if Find(ThemeOptions, key, value).None? {
      AllThemeOptionsListed();
      forall t: ThemeOption ensures t.RawValue() != value {
        assert t in ThemeOptions;
        assert key(t) == t.RawValue();
      }
    }
  }

  lemma AllThemeOptionsListed()
    ensures forall t: ThemeOption :: t in ThemeOptions
  {
    forall t: ThemeOption ensures t in ThemeOptions {
      match t
      case NONE => assert ThemeOptions[0] == t;
      case RED_BLUE => assert ThemeOptions[1] == t;
      case ORANGE_PURPLE => assert ThemeOptions[2] == t;
      case GREEN_YELLOW => assert ThemeOptions[3] == t;
    }
  }

  lemma ThemeOptionRoundTrip(t: ThemeOption)
    ensures ThemeOptionFromRawValue(t.RawValue()) == t
  {
    ThemeOptionFromRawValueSpec(t.RawValue());
  }

  /** The styling bundle handed to the 3DS challenge UI; its colour and font
      tables are not part of this model, only which bundle is meant. */
  datatype ThemeBundle = RedBlueTheme | OrangePurpleTheme | GreenYellowTheme

  /** The `uiCustomization` chosen for a theme: none for "No Theme", and a
      different bundle for each of the other three. */
  function UiCustomization(theme: ThemeOption): (r: Option<ThemeBundle>)
    ensures r.None? <==> theme == NONE
  {
    match theme
    case NONE => None
    case RED_BLUE => Some(RedBlueTheme)
    case ORANGE_PURPLE => Some(OrangePurpleTheme)
    case GREEN_YELLOW => Some(GreenYellowTheme)
  }

  lemma UiCustomizationInjective(a: ThemeOption, b: ThemeOption)
    requires UiCustomization(a) == UiCustomization(b)
    ensures a == b
  {
  }

  // ---------------------------------------------------------------- test cards

  /** The test-card presets; CUSTOM is the sentinel with empty data. */
  datatype TestCard =
    | CUSTOM
    | VISA_FRICTIONLESS | MASTERCARD_FRICTIONLESS | AMEX_FRICTIONLESS
    | DINERS_FRICTIONLESS | JCB_FRICTIONLESS
    | VISA_CHALLENGE | MASTERCARD_CHALLENGE | AMEX_CHALLENGE
    | DINERS_CHALLENGE | JCB_CHALLENGE
  {
    function RawValue(): string {
      match this
      case CUSTOM => "custom"
      case VISA_FRICTIONLESS => "visaFrictionless"
      case MASTERCARD_FRICTIONLESS => "mastercardFrictionless"
      case AMEX_FRICTIONLESS => "amexFrictionless"
      case DINERS_FRICTIONLESS => "dinersFrictionless"
      case JCB_FRICTIONLESS => "jcbFrictionless"
      case VISA_CHALLENGE => "visaChallenge"
      case MASTERCARD_CHALLENGE => "mastercardChallenge"
      case AMEX_CHALLENGE => "amexChallenge"
      case DINERS_CHALLENGE => "dinersChallenge"
      case JCB_CHALLENGE => "jcbChallenge"
    }

    function CardNumber(): string {
      match this
      case CUSTOM => ""
      case VISA_FRICTIONLESS => "4556557955726624"
      case MASTERCARD_FRICTIONLESS => "5333259155643223"
      case AMEX_FRICTIONLESS => "341502098634895"
      case DINERS_FRICTIONLESS => "36000000000008"
      case JCB_FRICTIONLESS => "3528000000000056"
      case VISA_CHALLENGE => "4024007189449340"
      case MASTERCARD_CHALLENGE => "5267648608924299"
      case AMEX_CHALLENGE => "349531373081938"
      case DINERS_CHALLENGE => "36000002000048"
      case JCB_CHALLENGE => "3528000000000148"
    }

    function ExpirationDate(): string {
      if this == CUSTOM then "" else "01/30"
    }

    /** Frictionless presets use "123", challenge presets "456". */
    function Cvv(): string {
      match this
      case CUSTOM => ""
      case VISA_FRICTIONLESS | MASTERCARD_FRICTIONLESS | AMEX_FRICTIONLESS
        | DINERS_FRICTIONLESS | JCB_FRICTIONLESS => "123"
      case _ => "456"
    }
  }

  const TestCards: seq<TestCard> := [
    CUSTOM,
    VISA_FRICTIONLESS, MASTERCARD_FRICTIONLESS, AMEX_FRICTIONLESS,
    DINERS_FRICTIONLESS, JCB_FRICTIONLESS,
    VISA_CHALLENGE, MASTERCARD_CHALLENGE, AMEX_CHALLENGE,
    DINERS_CHALLENGE, JCB_CHALLENGE]

  /** `TestCard.fromRawValue`: the preset stored as `value`, or CUSTOM when
      no preset is. */
  function TestCardFromRawValue(value: string): TestCard {
    match Find(TestCards, (t: TestCard) => t.RawValue(), value)
    case Some(t) => t
    case None => CUSTOM
  }

  /** The lookup gives the entry stored as `value`, or CUSTOM exactly
      when no entry is stored that way. */
  lemma TestCardFromRawValueSpec(value: string)
    ensures var r := TestCardFromRawValue(value);
      || r.RawValue() == value
      || (r == CUSTOM && forall t: TestCard :: t.RawValue() != value)
  {
    var key := (t: TestCard) => t.RawValue();
    FindSpec(TestCards, key, value);
    if Find(TestCards, key, value).None? {
      AllTestCardsListed();
      forall t: TestCard ensures t.RawValue() != value {
        assert t in TestCards;
        assert key(t) == t.RawValue();
      }
    }
  }

  lemma AllTestCardsListed()
    ensures forall t: TestCard :: t in TestCards
  {
    forall t: TestCard ensures t in TestCards {
      match t
      case CUSTOM => assert TestCards[0] == t;
      case VISA_FRICTIONLESS => assert TestCards[1] == t;
      case MASTERCARD_FRICTIONLESS => assert TestCards[2] == t;
      case AMEX_FRICTIONLESS => assert TestCards[3] == t;
      case DINERS_FRICTIONLESS => assert TestCards[4] == t;
      case JCB_FRICTIONLESS => assert TestCards[5] == t;
      case VISA_CHALLENGE => assert TestCards[6] == t;
      case MASTERCARD_CHALLENGE => assert TestCards[7] == t;
      case AMEX_CHALLENGE => assert TestCards[8] == t;
      case DINERS_CHALLENGE => assert TestCards[9] == t;
      case JCB_CHALLENGE => assert TestCards[10] == t;
    }
  }

  /** Distinct presets are stored under distinct raw values. */
  lemma TestCardRawValueInjective(a: TestCard, b: TestCard)
    requires a.RawValue() == b.RawValue()
    ensures a == b
  {
  }

  lemma TestCardRoundTrip(t: TestCard)
    ensures TestCardFromRawValue(t.RawValue()) == t
  {
    TestCardFromRawValueSpec(t.RawValue());
    TestCardRawValueInjective(TestCardFromRawValue(t.RawValue()), t);
  }

  /** Every preset other than CUSTOM carries a complete, non-blank triple. */
  lemma PresetDataNonBlank(t: TestCard)
    requires t != CUSTOM
    ensures !IsBlank(t.CardNumber()) && !IsBlank(t.ExpirationDate()) && !IsBlank(t.Cvv())
  {
    assert !IsWhitespace(t.CardNumber()[0]);
    assert !IsWhitespace(t.ExpirationDate()[0]);
    assert !IsWhitespace(t.Cvv()[0]);
  }
}
