/**
 * The user settings of the wallet app (`BlockchainSettings.App` and
 * `BlockchainSettings.Onboarding`), stored in the user defaults.
 *
 * The user defaults are a shared object with two domains: the persistent one,
 * a map from key to stored value that `set` and `removeObject` change, and the
 * registration domain that `register(defaults:)` fills and that reads fall back
 * on.  Every operation of the settings is stated first as a function on the
 * persistent map, and the properties the app relies on are proved about those
 * functions; the classes' methods change the shared store as those functions say.
 */
module BlockchainSettings {
  import W = Wrappers

  // ------------------------------------------------------------ the store

  /** A value stored in the user defaults. */
  datatype DefaultValue = BoolValue(b: bool) | IntValue(i: int) | StringValue(s: string)

  /** The Boolean properties of the app settings that only read and write their own key. */
  datatype FlagSetting =
    | DidRequestCameraPermissions | DidRequestMicrophonePermissions | DidRequestNotificationPermissions
    | HasEndedFirstSession | BiometryEnabled | SwipeToReceiveEnabled | DontAskUserToShowAppReviewPrompt
    | DidTapOnAirdropDeepLink | DidAttemptToRouteForAirdrop | DidTapOnDocumentResubmissionDeepLink
    | DidTapOnKycDeepLink | DidTapOnExchangeDeepLink | CustodySendInterstitialViewed

  /** The integer properties of the app settings. */
  datatype CountSetting = AppBecameActiveCount | DefaultAccountLabelledAddressesCount

  /** The optional-string properties of the app settings. */
  datatype TextSetting = PinKey | PasswordPartHash | DocumentResubmissionLinkReason | ExchangeLinkIdentifier

  /** The keys of the user defaults used by the settings (`UserDefaults.Keys`). */
  datatype Key =
    | FlagKey(flag: FlagSetting)
    | CountKey(count: CountSetting)
    | TextKey(text: TextSetting)
    | SymbolLocalKey
    | EncryptedPinPasswordKey
    | LegacyEncryptedPinPasswordKey
    | SelectedLegacyAssetTypeKey
    | LegacyPasswordKey              // `password`, the plain password of very old installs
    | LegacyPinKey                   // `pin`, the plain PIN of very old installs
    | WalletIntroLatestLocationKey
    | FirstRunKey

  type Store = map<Key, DefaultValue>

  /** `object(forKey:)`: the persistent domain first, then the registration domain. */
  function ObjectFor(values: Store, registered: Store, k: Key): (r: W.Option<DefaultValue>)
    ensures k in values ==> r == W.Some(values[k])
    ensures k !in values && k in registered ==> r == W.Some(registered[k])
    ensures k !in values && k !in registered ==> r == W.None
  {
    if k in values then W.Some(values[k])
    else if k in registered then W.Some(registered[k])
    else W.None
  }

  /** `bool(forKey:)`: false when absent. */
  function BoolFor(values: Store, registered: Store, k: Key): bool
  {
    match ObjectFor(values, registered, k)
    case Some(BoolValue(b)) => b
    case Some(IntValue(i)) => i != 0
    case _ => false
  }

  /** `integer(forKey:)`: 0 when absent. */
  function IntegerFor(values: Store, registered: Store, k: Key): int
  {
    match ObjectFor(values, registered, k)
    case Some(IntValue(i)) => i
    case Some(BoolValue(b)) => if b then 1 else 0
    case _ => 0
  }

  /** `string(forKey:)`: nil when absent. */
  function StringFor(values: Store, registered: Store, k: Key): W.Option<string>
  {
    match ObjectFor(values, registered, k)
    case Some(StringValue(s)) => W.Some(s)
    case _ => W.None
  }

  /** `set(_:forKey:)`: a value is stored, nil removes the key. */
  function Written(values: Store, k: Key, v: W.Option<DefaultValue>): (r: Store)
    ensures v.Some? ==> k in r && r[k] == v.value
    ensures v.None? ==> k !in r
    ensures forall j :: j != k ==> (j in r <==> j in values) && (j in r ==> r[j] == values[j])
  {
    if v.Some? then values[k := v.value] else values - {k}
  }

  function StringWritten(values: Store, k: Key, v: W.Option<string>): (r: Store)
    ensures v.Some? ==> k in r && r[k] == StringValue(v.value)
    ensures v.None? ==> k !in r
  {
    Written(values, k, if v.Some? then W.Some(StringValue(v.value)) else W.None)
  }

  /** Two stores agree on every key outside `changed`. */
  ghost predicate AgreeOutside(a: Store, b: Store, changed: set<Key>)
  {
    forall k :: k !in changed ==> (k in a <==> k in b) && (k in a ==> a[k] == b[k])
  }

  /**
   * A Boolean property reads back what was last written to it, and writing it
   * changes no other property of any kind.
   */
  lemma FlagReadBack(values: Store, registered: Store, f: FlagSetting, b: bool, k: Key)
    ensures BoolFor(values[FlagKey(f) := BoolValue(b)], registered, FlagKey(f)) == b
    ensures k != FlagKey(f) ==> ObjectFor(values[FlagKey(f) := BoolValue(b)], registered, k) == ObjectFor(values, registered, k)
  {
  }

  /** The same for integer properties. */
  lemma CountReadBack(values: Store, registered: Store, c: CountSetting, n: int, k: Key)
    ensures IntegerFor(values[CountKey(c) := IntValue(n)], registered, CountKey(c)) == n
    ensures k != CountKey(c) ==> ObjectFor(values[CountKey(c) := IntValue(n)], registered, k) == ObjectFor(values, registered, k)
  {
  }

  /** The same for optional-string properties; writing nil reads back nil unless a default is registered. */
  lemma TextReadBack(values: Store, registered: Store, t: TextSetting, v: W.Option<string>, k: Key)
    requires TextKey(t) !in registered
    ensures StringFor(StringWritten(values, TextKey(t), v), registered, TextKey(t)) == v
    ensures k != TextKey(t) ==> ObjectFor(StringWritten(values, TextKey(t), v), registered, k) == ObjectFor(values, registered, k)
  {
  }

  // ------------------------------------------------ PIN and encrypted password

  /** `encryptedPinPassword`: the current key, falling back on the pre-release key only when it is absent. */
  function EncryptedPinPasswordIn(values: Store, registered: Store): (r: W.Option<string>)
    ensures StringFor(values, registered, EncryptedPinPasswordKey).Some? ==> r == StringFor(values, registered, EncryptedPinPasswordKey)
    ensures StringFor(values, registered, EncryptedPinPasswordKey).None? ==> r == StringFor(values, registered, LegacyEncryptedPinPasswordKey)
  {
    var current := StringFor(values, registered, EncryptedPinPasswordKey);
    if current.Some? then current else StringFor(values, registered, LegacyEncryptedPinPasswordKey)
  }

  /** Setting `encryptedPinPassword`: write the current key and drop the pre-release key. */
  function EncryptedPinPasswordWritten(values: Store, v: W.Option<string>): (r: Store)
    ensures LegacyEncryptedPinPasswordKey !in r
    ensures v.Some? ==> EncryptedPinPasswordKey in r && r[EncryptedPinPasswordKey] == StringValue(v.value)
    ensures v.None? ==> EncryptedPinPasswordKey !in r
    ensures AgreeOutside(r, values, {EncryptedPinPasswordKey, LegacyEncryptedPinPasswordKey})
  {
    Written(StringWritten(values, EncryptedPinPasswordKey, v), LegacyEncryptedPinPasswordKey, W.None)
  }

  /** After a write, `encryptedPinPassword` reads back exactly what was written, whatever the pre-release key held. */
  lemma EncryptedPinPasswordReadBack(values: Store, registered: Store, v: W.Option<string>)
    requires EncryptedPinPasswordKey !in registered && LegacyEncryptedPinPasswordKey !in registered
    ensures EncryptedPinPasswordIn(EncryptedPinPasswordWritten(values, v), registered) == v
  {
  }

  /** `isPinSet`: both the PIN key and the encrypted password are present. */
  predicate IsPinSetIn(values: Store, registered: Store)
  {
    StringFor(values, registered, TextKey(PinKey)).Some? && EncryptedPinPasswordIn(values, registered).Some?
  }

  /** `clearPin()`, on the user defaults (the PIN itself lives in the keychain). */
  function PinCleared(values: Store): (r: Store)
    ensures AgreeOutside(r, values, PinKeys())
    ensures forall k :: k in PinKeys() ==> k !in r
  {
    var noPassword := EncryptedPinPasswordWritten(values, W.None);
    StringWritten(StringWritten(noPassword, TextKey(PinKey), W.None), TextKey(PasswordPartHash), W.None)
  }

  function PinKeys(): set<Key>
  {
    {EncryptedPinPasswordKey, LegacyEncryptedPinPasswordKey, TextKey(PinKey), TextKey(PasswordPartHash)}
  }

  /** No default is registered for the PIN keys: only the app's two registered defaults are. */
  predicate RegistersOnlyAppDefaults(registered: Store)
  {
    registered.Keys <= RegisteredDefaults().Keys
  }

  /** After `clearPin()` the PIN is not set, whatever the store held. */
  lemma PinClearedIsNotSet(values: Store, registered: Store)
    requires RegistersOnlyAppDefaults(registered)
    ensures !IsPinSetIn(PinCleared(values), registered)
    ensures EncryptedPinPasswordIn(PinCleared(values), registered) == W.None
  {
    PinClearedKeysNotSet(PinCleared(values), registered);
  }

  /** `isPinSet` holds after writing both the PIN key and the encrypted password. */
  lemma PinSetAfterWrites(values: Store, registered: Store, pinKey: string, password: string)
    ensures IsPinSetIn(EncryptedPinPasswordWritten(StringWritten(values, TextKey(PinKey), W.Some(pinKey)), W.Some(password)), registered)
  {
    var r := EncryptedPinPasswordWritten(StringWritten(values, TextKey(PinKey), W.Some(pinKey)), W.Some(password));
    assert r[TextKey(PinKey)] == StringValue(pinKey);
  }

  // ------------------------------------------------------------ symbolLocal

  /** The `symbolLocal` setter calls `onSymbolLocalChanged` with the new value exactly when it differs from the old one. */
  function SymbolLocalCallback(values: Store, registered: Store, newValue: bool): (r: W.Option<bool>)
    ensures r.Some? <==> BoolFor(values, registered, SymbolLocalKey) != newValue
    ensures r.Some? ==> r.value == newValue
  {
    if BoolFor(values, registered, SymbolLocalKey) != newValue then W.Some(newValue) else W.None
  }

  /** Writing the same `symbolLocal` twice calls back at most once: the second write finds the value unchanged. */
  lemma SymbolLocalRewriteIsSilent(values: Store, registered: Store, newValue: bool)
    ensures SymbolLocalCallback(values[SymbolLocalKey := BoolValue(newValue)], registered, newValue) == W.None
  {
  }

  // ------------------------------------------------- selected legacy asset

  /** The asset types of the legacy wallet, with their raw values. */
  datatype LegacyAssetType = Bitcoin | Ether | BitcoinCash | Stellar | Pax | Tether
  {
    function RawValue(): int
    {
      match this
      case Bitcoin => 0
      case Ether => 1
      case BitcoinCash => 2
      case Stellar => 3
      case Pax => 4
      case Tether => 5
    }
  }

  /** `LegacyAssetType(rawValue:)`. */
  function AssetTypeFromRaw(raw: int): (r: W.Option<LegacyAssetType>)
    ensures r.Some? ==> r.value.RawValue() == raw
    ensures forall t: LegacyAssetType :: t.RawValue() == raw ==> r == W.Some(t)
  {
    match raw
    case 0 => W.Some(Bitcoin)
    case 1 => W.Some(Ether)
    case 2 => W.Some(BitcoinCash)
    case 3 => W.Some(Stellar)
    case 4 => W.Some(Pax)
    case 5 => W.Some(Tether)
    case _ => W.None
  }

  /**
   * `selectedLegacyAssetType`: the stored raw value when it names an asset
   * that is enabled (`isEnabled` stands for `CryptoCurrency.allEnabled`), and
   * bitcoin otherwise.
   */
  function SelectedLegacyAssetTypeIn(values: Store, registered: Store, isEnabled: LegacyAssetType -> bool): (r: LegacyAssetType)
    ensures var raw := IntegerFor(values, registered, SelectedLegacyAssetTypeKey);
            r == (if AssetTypeFromRaw(raw).Some? && isEnabled(AssetTypeFromRaw(raw).value) then AssetTypeFromRaw(raw).value else Bitcoin)
    ensures r != Bitcoin ==> isEnabled(r) && r.RawValue() == IntegerFor(values, registered, SelectedLegacyAssetTypeKey)
  {
    var value := AssetTypeFromRaw(IntegerFor(values, registered, SelectedLegacyAssetTypeKey));
    if value.Some? && isEnabled(value.value) then value.value else Bitcoin
  }

  /** An enabled asset reads back as written; a raw value that names no asset reads as bitcoin. */
  lemma SelectedLegacyAssetTypeReadBack(values: Store, registered: Store, isEnabled: LegacyAssetType -> bool, t: LegacyAssetType, raw: int)
    ensures isEnabled(t) ==> SelectedLegacyAssetTypeIn(values[SelectedLegacyAssetTypeKey := IntValue(t.RawValue())], registered, isEnabled) == t
    ensures !(0 <= raw <= 5) ==> SelectedLegacyAssetTypeIn(values[SelectedLegacyAssetTypeKey := IntValue(raw)], registered, isEnabled) == Bitcoin
  {
  }

  // ------------------------------------------------------ registered defaults

  /** The defaults the app registers when it starts. */
  function RegisteredDefaults(): Store
  {
    map[FlagKey(SwipeToReceiveEnabled) := BoolValue(true), SelectedLegacyAssetTypeKey := IntValue(Bitcoin.RawValue())]
  }

  /** Until written, swipe-to-receive is enabled and the selected asset is bitcoin. */
  lemma RegisteredDefaultsApply(values: Store, registered: Store, isEnabled: LegacyAssetType -> bool)
    requires FlagKey(SwipeToReceiveEnabled) !in values && SelectedLegacyAssetTypeKey !in values
    ensures BoolFor(values, registered + RegisteredDefaults(), FlagKey(SwipeToReceiveEnabled))
    ensures SelectedLegacyAssetTypeIn(values, registered + RegisteredDefaults(), isEnabled) == Bitcoin
  {
    var reg := registered + RegisteredDefaults();
    assert reg[FlagKey(SwipeToReceiveEnabled)] == BoolValue(true);
    assert reg[SelectedLegacyAssetTypeKey] == IntValue(0);
  }

  // ------------------------------------------------------------------ reset

  /** The keys of the interstitial and deep-link flags `reset()` lowers. */
  function ResetFlagKeys(): set<Key>
  {
    {
      FlagKey(CustodySendInterstitialViewed), FlagKey(DidTapOnAirdropDeepLink), FlagKey(DidTapOnExchangeDeepLink),
      FlagKey(DidAttemptToRouteForAirdrop), FlagKey(DidTapOnKycDeepLink)
    }
  }

  /** The keys `reset()` writes on the user defaults. */
  function ResetKeys(): set<Key>
  {
    {TextKey(ExchangeLinkIdentifier)} + (ResetFlagKeys() + ({CountKey(AppBecameActiveCount)} + PinKeys()))
  }

  /** The flag writes of `reset()`. */
  function FlagsLowered(values: Store): Store
  {
    values[FlagKey(CustodySendInterstitialViewed) := BoolValue(false)]
          [FlagKey(DidTapOnAirdropDeepLink) := BoolValue(false)]
          [FlagKey(DidTapOnExchangeDeepLink) := BoolValue(false)]
          [FlagKey(DidAttemptToRouteForAirdrop) := BoolValue(false)]
          [FlagKey(DidTapOnKycDeepLink) := BoolValue(false)]
  }

  /** `reset()`, on the user defaults: clear the PIN, zero the counter, lower the flags, drop the Exchange link. */
  function ResetValues(values: Store): Store
  {
    var counted := Written(PinCleared(values), CountKey(AppBecameActiveCount), W.Some(IntValue(0)));
    StringWritten(FlagsLowered(counted), TextKey(ExchangeLinkIdentifier), W.None)
  }

  /** Agreement outside a set of keys composes. */
  lemma AgreeOutsideTrans(a: Store, b: Store, c: Store, s1: set<Key>, s2: set<Key>)
    requires AgreeOutside(a, b, s1) && AgreeOutside(b, c, s2)
    ensures AgreeOutside(a, c, s1 + s2)
  {
  }

  /** `reset()` writes only the keys it names: every other key holds what it held before. */
  lemma ResetFrame(values: Store)
    ensures AgreeOutside(ResetValues(values), values, ResetKeys())
  {
    var cleared := PinCleared(values);
    var counted := Written(cleared, CountKey(AppBecameActiveCount), W.Some(IntValue(0)));
    var lowered := FlagsLowered(counted);
    assert AgreeOutside(counted, cleared, {CountKey(AppBecameActiveCount)});
    AgreeOutsideTrans(counted, cleared, values, {CountKey(AppBecameActiveCount)}, PinKeys());
    AgreeOutsideTrans(lowered, counted, values, ResetFlagKeys(), {CountKey(AppBecameActiveCount)} + PinKeys());
    assert AgreeOutside(ResetValues(values), lowered, {TextKey(ExchangeLinkIdentifier)});
    AgreeOutsideTrans(ResetValues(values), lowered, values, {TextKey(ExchangeLinkIdentifier)},
                      ResetFlagKeys() + ({CountKey(AppBecameActiveCount)} + PinKeys()));
  }

  /** What `reset()` leaves at the keys it writes. */
  lemma ResetWrites(values: Store)
    ensures var r := ResetValues(values);
            && EncryptedPinPasswordKey !in r && LegacyEncryptedPinPasswordKey !in r
            && TextKey(PinKey) !in r && TextKey(PasswordPartHash) !in r
            && TextKey(ExchangeLinkIdentifier) !in r
            && CountKey(AppBecameActiveCount) in r && r[CountKey(AppBecameActiveCount)] == IntValue(0)
            && (forall k :: k in ResetFlagKeys() ==> k in r && r[k] == BoolValue(false))
  {
    var cleared := PinCleared(values);
    var counted := Written(cleared, CountKey(AppBecameActiveCount), W.Some(IntValue(0)));
    var lowered := FlagsLowered(counted);
    assert EncryptedPinPasswordKey !in cleared && LegacyEncryptedPinPasswordKey !in cleared;
    assert TextKey(PinKey) !in cleared && TextKey(PasswordPartHash) !in cleared;
  }

  /**
   * After `reset()` the PIN is not set, the launch counter is 0, the
   * interstitial and deep-link flags are false and there is no Exchange link.
   */
  lemma ResetEffects(values: Store, registered: Store)
    requires RegistersOnlyAppDefaults(registered)
    ensures var r := ResetValues(values);
            && !IsPinSetIn(r, registered)
            && IntegerFor(r, registered, CountKey(AppBecameActiveCount)) == 0
            && (forall k :: k in ResetFlagKeys() ==> !BoolFor(r, registered, k))
            && StringFor(r, registered, TextKey(ExchangeLinkIdentifier)) == W.None
  {
    ResetWrites(values);
    ResetStateReads(ResetValues(values), registered);
  }

  /** How a store holding what `reset()` writes reads back. */
  lemma ResetStateReads(r: Store, registered: Store)
    requires RegistersOnlyAppDefaults(registered)
    requires EncryptedPinPasswordKey !in r && LegacyEncryptedPinPasswordKey !in r
    requires TextKey(PinKey) !in r && TextKey(PasswordPartHash) !in r
    requires TextKey(ExchangeLinkIdentifier) !in r
    requires CountKey(AppBecameActiveCount) in r && r[CountKey(AppBecameActiveCount)] == IntValue(0)
    requires forall k :: k in ResetFlagKeys() ==> k in r && r[k] == BoolValue(false)
    ensures !IsPinSetIn(r, registered)
    ensures IntegerFor(r, registered, CountKey(AppBecameActiveCount)) == 0
    ensures forall k :: k in ResetFlagKeys() ==> !BoolFor(r, registered, k)
    ensures StringFor(r, registered, TextKey(ExchangeLinkIdentifier)) == W.None
  {
    PinClearedKeysNotSet(r, registered);
    assert TextKey(ExchangeLinkIdentifier) !in registered;
  }

  /** A store without any of the PIN keys has no PIN set. */
  lemma PinClearedKeysNotSet(values: Store, registered: Store)
    requires RegistersOnlyAppDefaults(registered)
    requires forall k :: k in PinKeys() ==> k !in values
    ensures !IsPinSetIn(values, registered)
    ensures EncryptedPinPasswordIn(values, registered) == W.None
  {
    assert TextKey(PinKey) in PinKeys() && EncryptedPinPasswordKey in PinKeys() && LegacyEncryptedPinPasswordKey in PinKeys();
    assert TextKey(PinKey) !in registered && EncryptedPinPasswordKey !in registered && LegacyEncryptedPinPasswordKey !in registered;
  }

  // -------------------------------------------------------------- migration

  const UIntMax: nat := 0xFFFF_FFFF_FFFF_FFFF

  predicate IsDigit(c: char)
  {
    '0' <= c <= '9'
  }

  predicate AllDigits(s: string)
  {
    forall i :: 0 <= i < |s| ==> IsDigit(s[i])
  }

  /** The value of a string of decimal digits, read left to right. */
  function DigitsValue(s: string): nat
    requires AllDigits(s)
    decreases |s|
  {
    if |s| == 0 then 0
    else DigitsValue(s[..|s| - 1]) * 10 + (s[|s| - 1] as int - '0' as int)
  }

  function ParseDigits(s: string): W.Option<nat>
  {
    if |s| > 0 && AllDigits(s) && DigitsValue(s) <= UIntMax then W.Some(DigitsValue(s)) else W.None
  }

  /**
   * Swift's `UInt(_: String)` on a 64-bit platform: an optional sign and at
   * least one decimal digit, no other character, within range; a minus sign
   * is accepted only before a zero value.
   */
  function ParseUInt(s: string): (r: W.Option<nat>)
    ensures r.Some? ==> r.value <= UIntMax
    ensures r.Some? ==>
              || (0 < |s| && AllDigits(s) && r.value == DigitsValue(s))
              || (1 < |s| && (s[0] == '+' || s[0] == '-') && AllDigits(s[1..]) && r.value == DigitsValue(s[1..]))
    ensures r.Some? && s[0] == '-' ==> r.value == 0
    ensures 0 < |s| && AllDigits(s) && DigitsValue(s) <= UIntMax ==> r == W.Some(DigitsValue(s))
    ensures 1 < |s| && s[0] == '+' && AllDigits(s[1..]) && DigitsValue(s[1..]) <= UIntMax ==> r == W.Some(DigitsValue(s[1..]))
    ensures 1 < |s| && s[0] == '-' && AllDigits(s[1..]) && DigitsValue(s[1..]) == 0 ==> r == W.Some(0)
  {
    if |s| > 0 && s[0] == '+' then ParseDigits(s[1..])
    else if |s| > 0 && s[0] == '-' then
      var d := ParseDigits(s[1..]);
      if d == W.Some(0) then d else W.None
    else ParseDigits(s)
  }

  /** The decimal representation of a natural number. */
  function Decimal(n: nat): (s: string)
    ensures |s| > 0 && AllDigits(s)
    decreases n
  {
    var digit := ('0' as int + n % 10) as char;
    if n < 10 then [digit] else Decimal(n / 10) + [digit]
  }

  lemma {:induction false} DecimalValue(n: nat)
    ensures DigitsValue(Decimal(n)) == n
    decreases n
  {
    var s := Decimal(n);
    if n >= 10 {
      DecimalValue(n / 10);
      assert s[..|s| - 1] == Decimal(n / 10);
    }
  }

  /** Every PIN that fits a `UInt` parses back from its decimal form. */
  lemma ParseUIntRoundTrip(n: nat)
    requires n <= UIntMax
    ensures ParseUInt(Decimal(n)) == W.Some(n)
  {
    DecimalValue(n);
  }

  /** What the migration hands on: the password to the legacy repository, the PIN to the keychain. */
  datatype Migration = Migration(password: string, pin: nat)

  /** `migratePasswordAndPinIfNeeded()`: runs only when both old strings exist and the PIN parses as a `UInt`. */
  function MigrationOf(values: Store, registered: Store): (r: W.Option<Migration>)
    ensures r.Some? <==>
              && StringFor(values, registered, LegacyPasswordKey).Some?
              && StringFor(values, registered, LegacyPinKey).Some?
              && ParseUInt(StringFor(values, registered, LegacyPinKey).value).Some?
    ensures r.Some? ==> r.value.password == StringFor(values, registered, LegacyPasswordKey).value
    ensures r.Some? ==> r.value.pin == ParseUInt(StringFor(values, registered, LegacyPinKey).value).value
  {
    var password := StringFor(values, registered, LegacyPasswordKey);
    var pin := StringFor(values, registered, LegacyPinKey);
    if password.None? || pin.None? then W.None
    else
      var code := ParseUInt(pin.value);
      if code.None? then W.None else W.Some(Migration(password.value, code.value))
  }

  /** The user defaults after the migration: the two old keys go only when it ran. */
  function MigratedValues(values: Store, registered: Store): (r: Store)
    ensures MigrationOf(values, registered).Some? ==> r == values - {LegacyPasswordKey, LegacyPinKey}
    ensures MigrationOf(values, registered).None? ==> r == values
  {
    if MigrationOf(values, registered).Some? then values - {LegacyPasswordKey, LegacyPinKey} else values
  }

  /** A stored PIN in decimal form together with a stored password always migrates, and is then gone. */
  lemma DecimalPinMigrates(values: Store, registered: Store, password: string, pin: nat)
    requires pin <= UIntMax
    ensures var stored := values[LegacyPasswordKey := StringValue(password)][LegacyPinKey := StringValue(Decimal(pin))];
            && MigrationOf(stored, registered) == W.Some(Migration(password, pin))
            && LegacyPinKey !in MigratedValues(stored, registered)
            && LegacyPasswordKey !in MigratedValues(stored, registered)
  {
    ParseUIntRoundTrip(pin);
  }

  // ------------------------------------------------------------- the objects

  /** The user defaults: a persistent domain and a registration domain. */
  class UserDefaults {
    var values: Store
    var registered: Store

    constructor (persisted: Store)
      ensures values == persisted && registered == map[]
    {
      values := persisted;
      registered := map[];
    }

    function Bool(k: Key): bool
      reads this
    {
      BoolFor(values, registered, k)
    }

    function Integer(k: Key): int
      reads this
    {
      IntegerFor(values, registered, k)
    }

    function String(k: Key): W.Option<string>
      reads this
    {
      StringFor(values, registered, k)
    }

    method Set(k: Key, v: W.Option<DefaultValue>)
      modifies this
      ensures values == Written(old(values), k, v) && registered == old(registered)
    {
      values := if v.Some? then values[k := v.value] else values - {k};
    }

    method Register(defaults: Store)
      modifies this
      ensures registered == old(registered) + defaults && values == old(values)
    {
      registered := registered + defaults;
    }
  }

  /** `BlockchainSettings.App`. */
  class App {
    const defaults: UserDefaults
    /** Whether `onSymbolLocalChanged` is set. */
    var observesSymbolLocal: bool
    /** The arguments `onSymbolLocalChanged` has been called with, in order. */
    var symbolLocalCallbacks: seq<bool>
    /** The PIN as the keychain holds it (`pin`). */
    var keychainPin: W.Option<string>

    /** `init()`: register the defaults, then migrate the old password and PIN. */
    constructor (defaults: UserDefaults, keychainPin: W.Option<string>)
      modifies defaults
      ensures this.defaults == defaults && this.keychainPin == keychainPin
      ensures defaults.registered == old(defaults.registered) + RegisteredDefaults()
      ensures defaults.values == MigratedValues(old(defaults.values), defaults.registered)
      ensures !observesSymbolLocal && symbolLocalCallbacks == []
    {
      this.defaults := defaults;
      observesSymbolLocal := false;
      symbolLocalCallbacks := [];
      this.keychainPin := keychainPin;
      new;
      defaults.Register(RegisteredDefaults());
      var _ := MigratePasswordAndPinIfNeeded();
    }

    function Flag(f: FlagSetting): bool
      reads defaults
    {
      defaults.Bool(FlagKey(f))
    }

    function Count(c: CountSetting): int
      reads defaults
    {
      defaults.Integer(CountKey(c))
    }

    function Text(t: TextSetting): W.Option<string>
      reads defaults
    {
      defaults.String(TextKey(t))
    }

    function EncryptedPinPassword(): W.Option<string>
      reads defaults
    {
      EncryptedPinPasswordIn(defaults.values, defaults.registered)
    }

    predicate IsPinSet()
      reads defaults
    {
      IsPinSetIn(defaults.values, defaults.registered)
    }

    function SymbolLocal(): bool
      reads defaults
    {
      defaults.Bool(SymbolLocalKey)
    }

    function SelectedLegacyAssetType(isEnabled: LegacyAssetType -> bool): LegacyAssetType
      reads defaults
    {
      SelectedLegacyAssetTypeIn(defaults.values, defaults.registered, isEnabled)
    }

    method SetFlag(f: FlagSetting, b: bool)
      modifies defaults
      ensures defaults.values == old(defaults.values)[FlagKey(f) := BoolValue(b)]
      ensures defaults.registered == old(defaults.registered)
    {
      defaults.Set(FlagKey(f), W.Some(BoolValue(b)));
    }

    method SetCount(c: CountSetting, n: int)
      modifies defaults
      ensures defaults.values == old(defaults.values)[CountKey(c) := IntValue(n)]
      ensures defaults.registered == old(defaults.registered)
    {
      defaults.Set(CountKey(c), W.Some(IntValue(n)));
    }

    method SetText(t: TextSetting, v: W.Option<string>)
      modifies defaults
      ensures defaults.values == StringWritten(old(defaults.values), TextKey(t), v)
      ensures defaults.registered == old(defaults.registered)
    {
      defaults.Set(TextKey(t), if v.Some? then W.Some(StringValue(v.value)) else W.None);
    }

    method SetEncryptedPinPassword(v: W.Option<string>)
      modifies defaults
      ensures defaults.values == EncryptedPinPasswordWritten(old(defaults.values), v)
      ensures defaults.registered == old(defaults.registered)
    {
      defaults.Set(EncryptedPinPasswordKey, if v.Some? then W.Some(StringValue(v.value)) else W.None);
      defaults.Set(LegacyEncryptedPinPasswordKey, W.None);
    }

    method SetSelectedLegacyAssetType(t: LegacyAssetType)
      modifies defaults
      ensures defaults.values == old(defaults.values)[SelectedLegacyAssetTypeKey := IntValue(t.RawValue())]
      ensures defaults.registered == old(defaults.registered)
    {
      defaults.Set(SelectedLegacyAssetTypeKey, W.Some(IntValue(t.RawValue())));
    }

    /** Assigning or clearing `onSymbolLocalChanged`. */
    method SetOnSymbolLocalChanged(present: bool)
      modifies this
      ensures observesSymbolLocal == present && symbolLocalCallbacks == old(symbolLocalCallbacks)
      ensures keychainPin == old(keychainPin)
    {
      observesSymbolLocal := present;
    }

    /** The `symbolLocal` setter: store, then call back if the value changed and a callback is set. */
    method SetSymbolLocal(newValue: bool)
      modifies this, defaults
      ensures defaults.values == old(defaults.values)[SymbolLocalKey := BoolValue(newValue)]
      ensures defaults.registered == old(defaults.registered)
      ensures observesSymbolLocal == old(observesSymbolLocal) && keychainPin == old(keychainPin)
      ensures var callback := SymbolLocalCallback(old(defaults.values), old(defaults.registered), newValue);
              symbolLocalCallbacks == old(symbolLocalCallbacks) + (if observesSymbolLocal && callback.Some? then [callback.value] else [])
    {
      var oldValue := SymbolLocal();
      defaults.Set(SymbolLocalKey, W.Some(BoolValue(newValue)));
      if oldValue != newValue && observesSymbolLocal {
        symbolLocalCallbacks := symbolLocalCallbacks + [newValue];
      }
    }

    /** The `pin` setter: nil removes the PIN from the keychain. */
    method SetPin(v: W.Option<string>)
      modifies this
      ensures keychainPin == v
      ensures observesSymbolLocal == old(observesSymbolLocal) && symbolLocalCallbacks == old(symbolLocalCallbacks)
    {
      keychainPin := v;
    }

    /** `clearPin()`: the keychain PIN goes, and so do the four PIN keys of the user defaults, the pre-release encrypted password included. */
    method ClearPin()
      modifies this, defaults
      ensures keychainPin == W.None
      ensures observesSymbolLocal == old(observesSymbolLocal) && symbolLocalCallbacks == old(symbolLocalCallbacks)
      ensures defaults.values == PinCleared(old(defaults.values))
      ensures defaults.registered == old(defaults.registered)
    {
      SetPin(W.None);
      SetEncryptedPinPassword(W.None);
      SetText(PinKey, W.None);
      SetText(PasswordPartHash, W.None);
    }

    /** `reset()`. */
    method Reset()
      modifies this, defaults
      ensures keychainPin == W.None
      ensures observesSymbolLocal == old(observesSymbolLocal) && symbolLocalCallbacks == old(symbolLocalCallbacks)
      ensures defaults.values == ResetValues(old(defaults.values))
      ensures defaults.registered == old(defaults.registered)
    {
      ClearPin();
      SetCount(AppBecameActiveCount, 0);
      SetFlag(CustodySendInterstitialViewed, false);
      SetFlag(DidTapOnAirdropDeepLink, false);
      SetFlag(DidTapOnExchangeDeepLink, false);
      SetFlag(DidAttemptToRouteForAirdrop, false);
      SetFlag(DidTapOnKycDeepLink, false);
      SetText(ExchangeLinkIdentifier, W.None);
    }

    /** `migratePasswordAndPinIfNeeded()`; returns what it hands to the legacy repository and the keychain. */
    method MigratePasswordAndPinIfNeeded() returns (migrated: W.Option<Migration>)
      modifies defaults
      ensures migrated == MigrationOf(old(defaults.values), old(defaults.registered))
      ensures defaults.values == MigratedValues(old(defaults.values), old(defaults.registered))
      ensures defaults.registered == old(defaults.registered)
    {
      var password := defaults.String(LegacyPasswordKey);
      var pinString := defaults.String(LegacyPinKey);
      if password.None? || pinString.None? {
        return W.None;
      }
      var code := ParseUInt(pinString.value);
      if code.None? {
        return W.None;
      }
      migrated := W.Some(Migration(password.value, code.value));
      defaults.Set(LegacyPasswordKey, W.None);
      defaults.Set(LegacyPinKey, W.None);
    }
  }

  /** `BlockchainSettings.Onboarding`: shares the same user defaults as the app settings. */
  class Onboarding {
    const defaults: UserDefaults

    constructor (defaults: UserDefaults)
      ensures this.defaults == defaults
    {
      this.defaults := defaults;
    }

    function FirstRun(): bool
      reads defaults
    {
      defaults.Bool(FirstRunKey)
    }

    method SetFirstRun(b: bool)
      modifies defaults
      ensures defaults.values == old(defaults.values)[FirstRunKey := BoolValue(b)]
      ensures defaults.registered == old(defaults.registered)
    {
      defaults.Set(FirstRunKey, W.Some(BoolValue(b)));
    }

    /** `reset()`: forget where the wallet introduction stopped. */
    method Reset()
      modifies defaults
      ensures defaults.values == old(defaults.values) - {WalletIntroLatestLocationKey}
      ensures defaults.registered == old(defaults.registered)
    {
      defaults.Set(WalletIntroLatestLocationKey, W.None);
    }
  }
}
