# Wallet app core: cached values, settings screen, user settings, badges

This project models four parts of the Blockchain wallet iOS app in Dafny.

- **`CachedValueOld`** is the app's in-memory cache of a remote value (`cached_value.dfy`). It has a single state cell: `empty`, `flush`, `invalid(shouldFetch)`, `calculating`, or `stream` of a public, private or `none` element. The refresh control's actions drive the cell, and so do subscriptions to `valueObservable`. When `valueObservable` sees a state, it either starts the bound fetch or emits one element. The fetch's lifecycle hooks move the state from `calculating` to `stream(private v)`, or back to `empty`. The first error of a fetch ends the subscriber's stream. A `nullReference` error, from a fetch whose weakly held owner is gone, is replaced by one `none` element, and the stream then completes. A `fetchFailed` error ends the stream with that error. Any other error leaves the cache `invalid(false)` and ends the stream with `fetchFailed`. Subscribers receive only public elements.
  - The class `CachedValueOld` has one method per event, and each method is specified by a pure step function on a `Snapshot` of the class's fields.
  - On those functions the model proves three things: the reaction table, the delivery rule, and the lifecycle's closed form.
  - It also proves two properties over arbitrary event traces. First, the cache never stores a public element. Second, after an invalidation every value a subscriber receives entered the cache after the flush: through a fetch an evaluation started, or through an `onNext` hook, possibly of a fetch already running at the flush. The value held at the flush is never delivered unless it is produced again.
  - Two more lemmas show what the code does not promise. A flush does not cancel a running fetch, whose value is still delivered afterwards. And a running fetch does not prevent a second one.
- **The settings screen** (`settings_screen.dfy`) defines which sections are shown, in which order, and which cells each section holds (`SettingsScreenPresenter`).
- **The user settings** (`blockchain_settings.dfy`) are `BlockchainSettings.App` and `BlockchainSettings.Onboarding`, stored in the user defaults.
  - The user defaults have a persistent domain and a registration domain.
  - Every setter and reset is stated as a function on the persistent map. Lemmas then prove read-back, framing, the encrypted-password fallback, clearing the PIN, `reset()`, the registered defaults and the guarded password/PIN migration.
  - Swift's `UInt(String)` is modelled, and the model proves that every PIN in range parses back from its decimal form.
- **Badges** (`badge_asset.dfy`) model `BadgeAsset`: the case-only equality on badge types, the presentation mapping, its lifting to `LoadingState`, and the predefined badge items.

Several things are inputs to the model rather than computed by it:
- the clock;
- the refresh control's verdict;
- whether a weakly held fetch owner is still alive;
- what a fetch closure produces;
- the feature flags;
- the linked cards;
- localized strings;
- the set of enabled crypto-currencies.

## Model

| member | source | states |
|---|---|---|
| CachedValue.StreamType.Value | ToolKit/Utilities/CachedValue/CachedValueOld.swift:108-115 | A value exists exactly for public and private elements, and it is their payload. `none` carries nothing. |
| CachedValue.StreamState.AsStream | ToolKit/Utilities/CachedValue/CachedValueOld.swift:47-54 | A state has a stream element exactly when it is a `stream` state, and it is the element that state holds. |
| CachedValue.PublicOnly | ToolKit/Utilities/CachedValue/CachedValueOld.swift:242 | The `isPublic` filter never grows the stream, and everything it keeps is public. |
| CachedValue.CompactValues | ToolKit/Utilities/CachedValue/CachedValueOld.swift:243 | The `value` compact map yields at most one value per element, and nothing from a stream of `none` elements. |
| CachedValue.Delivered | ToolKit/Utilities/CachedValue/CachedValueOld.swift:242-243 | A subscriber receives at most one value per internal element. `DeliveredByElement` and `DeliveredOnlyPublic` state which. |
| CachedValue.PublicOnlyKeepsPublic | ToolKit/Utilities/CachedValue/CachedValueOld.swift:242 | The filter keeps only public elements of its input, never grows, and yields nothing from a stream with no public element. |
| CachedValue.CompactValuesOfPublic | ToolKit/Utilities/CachedValue/CachedValueOld.swift:243 | On public elements, the compact map yields each payload, in order, one per element. |
| CachedValue.DeliveredOnlyPublic | ToolKit/Utilities/CachedValue/CachedValueOld.swift:242-243 | Subscribers receive only payloads of public elements of the internal stream. They receive nothing when it holds none. |
| CachedValue.PublicOnlyAppend | ToolKit/Utilities/CachedValue/CachedValueOld.swift:242 | Filtering a concatenation is concatenating the filtered halves, so every public element is kept, in order. |
| CachedValue.CompactValuesAppend | ToolKit/Utilities/CachedValue/CachedValueOld.swift:243 | The compact map of a concatenation is the concatenation of the halves' compact maps. |
| CachedValue.DeliveredByElement | ToolKit/Utilities/CachedValue/CachedValueOld.swift:242-243 | Delivery goes element by element, in order. A public element delivers its payload. A private or `none` element delivers nothing. |
| CachedValue.ActionState | ToolKit/Utilities/CachedValue/CachedValueOld.swift:282-289 | A refresh-control fetch action yields `empty` and a flush action yields `flush`, each exactly. |
| CachedValue.Subscribed | ToolKit/Utilities/CachedValue/CachedValueOld.swift:168-176 | Subscribing turns `invalid(false)` into `invalid(true)` and leaves every other state unchanged. |
| CachedValue.ReactionTo | ToolKit/Utilities/CachedValue/CachedValueOld.swift:197-223 | A fetch starts exactly for `empty`, `invalid(true)`, and a private stream with a refresh due. A private stream with no refresh due emits `public(v)`. Every other state emits `none`. |
| CachedValue.ReactedState | ToolKit/Utilities/CachedValue/CachedValueOld.swift:202-204 | An emitting reaction rewrites only `flush`, which becomes `invalid(false)`. |
| CachedValue.FetchSubscribed | ToolKit/Utilities/CachedValue/CachedValueOld.swift:310-312 | The fetch `onSubscribe` hook sets `calculating` and keeps the bound fetch and the refresh date. |
| CachedValue.FetchProduced | ToolKit/Utilities/CachedValue/CachedValueOld.swift:305-309 | The `onNext`/`onSuccess` hook holds the value privately, records the refresh date and keeps the bound fetch. |
| CachedValue.FetchDisposed | ToolKit/Utilities/CachedValue/CachedValueOld.swift:313-317 | The `onDispose` hook never leaves `calculating` behind. Outside `calculating` it changes nothing. It keeps the bound fetch and the refresh date. |
| CachedValue.ProduceLast | ToolKit/Utilities/CachedValue/CachedValueOld.swift:305-309 | After any non-empty run of `onNext` hooks, the state holds the last value privately with the refresh date recorded. |
| CachedValue.Lifecycle | ToolKit/Utilities/CachedValue/CachedValueOld.swift:299-344 | An uninterrupted fetch subscription ends holding its last value privately with the refresh date recorded. If it produced nothing, it ends back at `empty`. |
| CachedValue.Invoke | ToolKit/Utilities/CachedValue/CachedValueOld.swift:357-374 | A weakly bound fetch whose owner is gone fails with `nullReference` and produces nothing. Any other fetch runs as given. |
| CachedValue.RecoveryFor | ToolKit/Utilities/CachedValue/CachedValueOld.swift:225-241 | Classifies errors: exactly `nullReference` is swallowed, and exactly `fetchFailed` is rethrown. Every other error invalidates the cache and fails. `FetchOutcome` states what each branch does. |
| CachedValue.Ticks | ToolKit/Utilities/CachedValue/CachedValueOld.swift:186-193 | A fetch started by `valueObservable` emits one `none` per produced value. |
| CachedValue.FetchPath | ToolKit/Utilities/CachedValue/CachedValueOld.swift:177-241 | The fetch closure plus `catchError` never rebinds the fetch, and its only error is `fetchFailed`. It emits only `none` elements. With no fetch bound it emits one `none` and changes nothing. Otherwise it never leaves `calculating` or `flush` behind. `FetchOutcome` gives each case exactly. |
| CachedValue.Access | ToolKit/Utilities/CachedValue/CachedValueOld.swift:165-244 | One evaluation never rebinds the fetch, and its only error is `fetchFailed`. It never stores a public element and never emits a private one. |
| CachedValue.AccessDelivery | ToolKit/Utilities/CachedValue/CachedValueOld.swift:211-220 | One evaluation delivers a value exactly when the cache holds a private value and no refresh is due. It then delivers that value. |
| CachedValue.FetchedBy | ToolKit/Utilities/CachedValue/CachedValueOld.swift:177-221 | One evaluation produces fetched values only when its state starts a fetch and a fetch is bound. Those values come from the fetch's run. |
| CachedValue.CalculatingStartsNoFetch | ToolKit/Utilities/CachedValue/CachedValueOld.swift:200-201 | In state `calculating`, an evaluation starts no fetch, produces no value, changes nothing and emits `none`. This holds only for that state. `SecondFetchWhileRunning` shows how a running fetch can leave it. |
| CachedValue.FetchOutcome | ToolKit/Utilities/CachedValue/CachedValueOld.swift:177-241 | A started fetch that completes ends in the lifecycle's state, with one `none` per value. `nullReference` adds one more `none` and no error. `fetchFailed` is passed on with the lifecycle's state. Any other error leaves `invalid(false)` and surfaces `fetchFailed`. |
| CachedValue.MissingFetchEmitsNone | ToolKit/Utilities/CachedValue/CachedValueOld.swift:177-229 | When no fetch is bound, an evaluation that should fetch emits one `none` and changes nothing. When a weakly bound fetch's owner is gone, it emits one `none`, raises no error, and the cache ends `empty`. |
| CachedValue.FailedFetchIsRetried | ToolKit/Utilities/CachedValue/CachedValueOld.swift:225-241 | A failing fetch leaves `invalid(false)` and surfaces `fetchFailed`. The next subscription re-arms the cache, a successful retry stores the value privately, and the next evaluation delivers it. |
| CachedValue.Step | ToolKit/Utilities/CachedValue/CachedValueOld.swift:150-374 | Only a fetch binding changes the bound fetch. Only an evaluation of `valueObservable` emits elements or raises an error, and that error is `fetchFailed`. |
| CachedValue.Produced | ToolKit/Utilities/CachedValue/CachedValueOld.swift:165-344 | The values that enter the cache along a trace: those of each fetch an evaluation actually starts, seen from the state the evaluation meets, and each value an `onNext` hook records. |
| CachedValue.StepStoresOnlyPrivate | ToolKit/Utilities/CachedValue/CachedValueOld.swift:197-241 | No single event stores a public element. |
| CachedValue.RunStoresOnlyPrivate | ToolKit/Utilities/CachedValue/CachedValueOld.swift:299-344 | No trace of events ever stores a public element. |
| CachedValue.AccessDeliversHeld | ToolKit/Utilities/CachedValue/CachedValueOld.swift:197-243 | One evaluation delivers only a value the cache held before it. Afterwards the cache holds an earlier value or one produced by the fetch this evaluation actually started. |
| CachedValue.StepDeliversHeld | ToolKit/Utilities/CachedValue/CachedValueOld.swift:165-244 | One event delivers only a value the cache held before it. Afterwards the cache holds only earlier values or ones this event's fetch produced. |
| CachedValue.RunDeliversHeldOrProduced | ToolKit/Utilities/CachedValue/CachedValueOld.swift:165-244 | Along any trace, every delivered value was held at the start or entered the cache during the trace. It entered either through a fetch that an evaluation actually started, or through an `onNext` hook. An evaluation that starts no fetch counts as producing nothing. |
| CachedValue.NoStaleDeliveryAfterInvalidate | ToolKit/Utilities/CachedValue/CachedValueOld.swift:150-155 | After `invalidate`, every delivered value entered the cache after the flush. It came through a fetch an evaluation started, or through an `onNext` hook, possibly of a fetch already running at the flush. A value held at the flush and not produced again is never delivered. |
| CachedValue.FlushRacesRunningFetch | ToolKit/Utilities/CachedValue/CachedValueOld.swift:150-155 | The flush does not cancel a fetch already running. Its next `onNext` stores the value, and the next evaluation delivers it, though that fetch started before the flush. |
| CachedValue.SecondFetchWhileRunning | ToolKit/Utilities/CachedValue/CachedValueOld.swift:197-223 | A running fetch does not prevent a second one. The refresh control's fetch action resets `calculating` to `empty`. A flush, an evaluation and a new subscription re-arm the cell as `invalid(true)`. Either way the next evaluation starts another fetch. |
| CachedValue.CachedValueOld.constructor | ToolKit/Utilities/CachedValue/CachedValueOld.swift:261 | A new cache is `empty`, has no fetch bound and has no refresh date. |
| CachedValue.CachedValueOld.LegacyValue | ToolKit/Utilities/CachedValue/CachedValueOld.swift:146-148 | `legacyValue` is the payload of a held public or private element, and nothing otherwise. |
| CachedValue.CachedValueOld.ApplyAction | ToolKit/Utilities/CachedValue/CachedValueOld.swift:277-292 | A refresh-control action replaces the state as `ActionState` says, and only the state. |
| CachedValue.CachedValueOld.Invalidate | ToolKit/Utilities/CachedValue/CachedValueOld.swift:150-155 | `invalidate` moves the cache to `flush` and keeps the fetch and the refresh date. |
| CachedValue.CachedValueOld.OnSubscribe | ToolKit/Utilities/CachedValue/CachedValueOld.swift:168-176 | The subscribe hook changes the state as `Subscribed` says, and nothing else. |
| CachedValue.CachedValueOld.SetFetch | ToolKit/Utilities/CachedValue/CachedValueOld.swift:346-374 | `setFetch` binds a fetch of the given shape and ownership and leaves the state alone. |
| CachedValue.CachedValueOld.OnFetchSubscribe | ToolKit/Utilities/CachedValue/CachedValueOld.swift:310-312 | Subscribing to a fetch sets `calculating`. |
| CachedValue.CachedValueOld.OnFetchValue | ToolKit/Utilities/CachedValue/CachedValueOld.swift:305-309 | A produced value records the refresh date and is held privately. |
| CachedValue.CachedValueOld.OnFetchDispose | ToolKit/Utilities/CachedValue/CachedValueOld.swift:313-317 | Disposal resets to `empty` only from `calculating`. |
| CachedValue.CachedValueOld.FetchAsSingle | ToolKit/Utilities/CachedValue/CachedValueOld.swift:388-396 | An unset fetch fails with `unsetFetchClosure` and an observable-shaped one with `internalError`, in both cases without a state change. Otherwise the fetch runs the single through its lifecycle. |
| CachedValue.CachedValueOld.FetchAsObservable | ToolKit/Utilities/CachedValue/CachedValueOld.swift:378-386 | An unset fetch fails with `unsetFetchClosure` and a single-shaped one with `internalError`, in both cases without a state change. Otherwise the loop over the values ends in the `Lifecycle` state. |
| CachedValue.CachedValueOld.React | ToolKit/Utilities/CachedValue/CachedValueOld.swift:177-241 | The method's new state, emitted elements and error are those of `Access` on the old state. |
| SettingsScreen.Sections | Blockchain/Settings/NewSettings/SettingsScreen/SettingsScreenPresenter.swift:151-168 | Appending, then inserting connect at index 2, gives profile, preferences, [connect], security, [cards], about. |
| SettingsScreen.SectionOrderShape | Blockchain/Settings/NewSettings/SettingsScreen/SettingsScreenPresenter.swift:151-168 | The order starts with profile and preferences and ends with about. Connect appears at index 2 exactly when the Exchange is enabled. Cards appear just before about exactly when cards are enabled. There are 4 sections plus one per enabled flag, and none appears twice. |
| SettingsScreen.CellArrangement | Blockchain/Settings/NewSettings/SettingsScreen/SettingsScreenPresenter.swift:177-271 | Profile has 5 cells, preferences 2, connect 1 and about 4. Cards has one cell per linked card, in order, then "add card". Security has its 5 fixed cells, plus swipe-to-receive exactly when that is enabled. |
| SettingsScreen.ArrangeCells | Blockchain/Settings/NewSettings/SettingsScreen/SettingsScreenPresenter.swift:212-254 | The list-growing cards and security branches produce `CellArrangement`. |
| SettingsScreen.SectionViewModels | Blockchain/Settings/NewSettings/SettingsScreen/SettingsScreenPresenter.swift:40-51 | There is one view model per arranged section, in order, holding that section's cells. |
| SettingsScreen.ScreenCards | Blockchain/Settings/NewSettings/SettingsScreen/SettingsScreenPresenter.swift:40-51 | "Add card" is on screen exactly when cards are enabled, and then so is every linked card. |
| SettingsScreen.SwipeOnlyInSecurity | Blockchain/Settings/NewSettings/SettingsScreen/SettingsScreenPresenter.swift:246-252 | Only the security section holds the swipe-to-receive switch, and only when it is enabled. |
| SettingsScreen.ScreenSwipeToReceive | Blockchain/Settings/NewSettings/SettingsScreen/SettingsScreenPresenter.swift:40-51 | Swipe-to-receive is on screen exactly when it is enabled. |
| BlockchainSettings.FlagReadBack | Blockchain/Settings/BlockchainSettings.swift:69-94 | A Boolean setting reads back what was written, and the write changes no other key. |
| BlockchainSettings.CountReadBack | Blockchain/Settings/BlockchainSettings.swift:60-67 | An integer setting reads back what was written, and the write changes no other key. |
| BlockchainSettings.TextReadBack | Blockchain/Settings/BlockchainSettings.swift:143-150 | An optional-string setting reads back what was written, nil included, and the write changes no other key. |
| BlockchainSettings.EncryptedPinPasswordIn | Blockchain/Settings/BlockchainSettings.swift:106-110 | The current key is used when present. Only when it is absent does the read fall back on the pre-release key. |
| BlockchainSettings.App.EncryptedPinPassword | Blockchain/Settings/BlockchainSettings.swift:106-110 | The getter reads the shared user defaults through `EncryptedPinPasswordIn`, with the same fallback. |
| BlockchainSettings.IsPinSetIn | Blockchain/Settings/BlockchainSettings.swift:139-141 | `isPinSet` holds exactly when the PIN key and the encrypted password, with its fallback, are both present. `PinClearedIsNotSet` and `PinSetAfterWrites` are its partners. |
| BlockchainSettings.App.IsPinSet | Blockchain/Settings/BlockchainSettings.swift:139-141 | The getter reads the shared user defaults through `IsPinSetIn`. |
| BlockchainSettings.EncryptedPinPasswordWritten | Blockchain/Settings/BlockchainSettings.swift:111-114 | The write sets or removes the current key, always removes the pre-release key, and touches nothing else. |
| BlockchainSettings.EncryptedPinPasswordReadBack | Blockchain/Settings/BlockchainSettings.swift:106-115 | After a write, the encrypted password reads back exactly what was written. |
| BlockchainSettings.PinCleared | Blockchain/Settings/BlockchainSettings.swift:473-478 | `clearPin()` removes the four PIN keys and no other key. |
| BlockchainSettings.PinClearedKeysNotSet | Blockchain/Settings/BlockchainSettings.swift:139-141 | Without any of the PIN keys, `isPinSet` is false and there is no encrypted password. |
| BlockchainSettings.PinClearedIsNotSet | Blockchain/Settings/BlockchainSettings.swift:139-141 | After `clearPin()`, `isPinSet` is false and there is no encrypted password. |
| BlockchainSettings.PinSetAfterWrites | Blockchain/Settings/BlockchainSettings.swift:139-141 | Writing both the PIN key and the encrypted password makes `isPinSet` true. |
| BlockchainSettings.SymbolLocalCallback | Blockchain/Settings/BlockchainSettings.swift:156-169 | The callback is called, with the new value, exactly when it differs from the old value. |
| BlockchainSettings.SymbolLocalRewriteIsSilent | Blockchain/Settings/BlockchainSettings.swift:160-168 | Writing the same value again never calls back. |
| BlockchainSettings.AssetTypeFromRaw | Blockchain/Settings/BlockchainSettings.swift:243 | The raw initializer yields the asset with that raw value, or nothing. |
| BlockchainSettings.SelectedLegacyAssetTypeIn | Blockchain/Settings/BlockchainSettings.swift:240-248 | The read gives the stored asset when it exists and is enabled, and bitcoin otherwise. |
| BlockchainSettings.SelectedLegacyAssetTypeReadBack | Blockchain/Settings/BlockchainSettings.swift:240-252 | An enabled asset reads back as written. An unrecognised raw value reads back as bitcoin. |
| BlockchainSettings.RegisteredDefaultsApply | Blockchain/Settings/BlockchainSettings.swift:433-436 | Until they are written, swipe-to-receive reads true and the selected asset reads bitcoin. |
| BlockchainSettings.ResetValues | Blockchain/Settings/BlockchainSettings.swift:448-458 | `reset()` on the user defaults: clear the PIN keys, zero the launch counter, lower five flags and drop the Exchange link. `ResetFrame`, `ResetWrites` and `ResetEffects` prove this. |
| BlockchainSettings.ResetFrame | Blockchain/Settings/BlockchainSettings.swift:448-458 | `reset()` leaves every key it does not name as it was. |
| BlockchainSettings.ResetWrites | Blockchain/Settings/BlockchainSettings.swift:448-458 | `reset()` removes the four PIN keys and the Exchange link, stores 0 for the launch counter, and stores false for the five flags. |
| BlockchainSettings.ResetStateReads | Blockchain/Settings/BlockchainSettings.swift:448-458 | A store holding those writes reads back as: PIN not set, counter 0, flags false, no Exchange link. |
| BlockchainSettings.ResetEffects | Blockchain/Settings/BlockchainSettings.swift:448-458 | After `reset()`: the PIN is not set, the launch counter is 0, the interstitial and four deep-link flags are false, and there is no Exchange link. |
| BlockchainSettings.ParseUInt | Blockchain/Settings/BlockchainSettings.swift:484 | A string parses exactly when it is a non-empty run of digits, optionally after `+`, whose value fits 64 bits, or `-` followed by digits of value zero. The parsed value is the value of those digits. |
| BlockchainSettings.ParseUIntRoundTrip | Blockchain/Settings/BlockchainSettings.swift:484 | Every value that fits 64 bits parses back from its decimal form. |
| BlockchainSettings.MigrationOf | Blockchain/Settings/BlockchainSettings.swift:481-490 | The migration runs exactly when both old strings exist and the PIN parses. It hands on that password and that PIN. |
| BlockchainSettings.MigratedValues | Blockchain/Settings/BlockchainSettings.swift:492-493 | The old password and PIN keys are removed exactly when the migration ran. Otherwise the store is untouched. |
| BlockchainSettings.DecimalPinMigrates | Blockchain/Settings/BlockchainSettings.swift:481-494 | A stored password with a stored decimal PIN always migrates, and both old keys are then gone. |
| BlockchainSettings.App.constructor | Blockchain/Settings/BlockchainSettings.swift:428-439 | `init` registers the two defaults, then migrates. |
| BlockchainSettings.App.SetFlag | Blockchain/Settings/BlockchainSettings.swift:69-94 | A Boolean setter stores its value under its own key. |
| BlockchainSettings.App.SetCount | Blockchain/Settings/BlockchainSettings.swift:60-67 | An integer setter stores its value under its own key. |
| BlockchainSettings.App.SetText | Blockchain/Settings/BlockchainSettings.swift:143-150 | An optional-string setter stores its value, or removes the key for nil. |
| BlockchainSettings.App.SetEncryptedPinPassword | Blockchain/Settings/BlockchainSettings.swift:111-114 | The setter changes the store as `EncryptedPinPasswordWritten` says. |
| BlockchainSettings.App.SetSelectedLegacyAssetType | Blockchain/Settings/BlockchainSettings.swift:249-251 | The setter stores the asset's raw value. |
| BlockchainSettings.App.SetOnSymbolLocalChanged | Blockchain/Settings/BlockchainSettings.swift:152 | Setting the callback replaces it and calls nothing. |
| BlockchainSettings.App.SetSymbolLocal | Blockchain/Settings/BlockchainSettings.swift:156-169 | The setter stores the value. The callback receives it exactly when it changed and a callback is set. |
| BlockchainSettings.App.SetPin | Blockchain/Settings/BlockchainSettings.swift:126-137 | The keychain PIN becomes the given value, and nil removes it. |
| BlockchainSettings.App.ClearPin | Blockchain/Settings/BlockchainSettings.swift:473-478 | The keychain PIN goes, and the store changes as `PinCleared` says. |
| BlockchainSettings.App.Reset | Blockchain/Settings/BlockchainSettings.swift:448-458 | The keychain PIN goes, and the store changes as `ResetValues` says. |
| BlockchainSettings.App.MigratePasswordAndPinIfNeeded | Blockchain/Settings/BlockchainSettings.swift:481-494 | The method returns `MigrationOf` of the old store and leaves `MigratedValues` of it. |
| BlockchainSettings.Onboarding.SetFirstRun | Blockchain/Settings/BlockchainSettings.swift:535-542 | `firstRun` is stored under its own key. |
| BlockchainSettings.Onboarding.Reset | Blockchain/Settings/BlockchainSettings.swift:548-550 | Onboarding `reset()` removes the wallet-introduction location and only that key. |
| BadgeAsset.SameType | PlatformUIKit/Views/Cells/Badge/BadgeAsset/BadgeAsset.swift:34-46 | The custom `==` on badge types holds exactly for the same case, whatever the progress models. `SameTypeIsEquivalence` and `SameTypeIsEqualityExceptProgress` prove its properties. |
| BadgeAsset.SameItem | PlatformUIKit/Views/Cells/Badge/BadgeAsset/BadgeAsset.swift:26 | The synthesized `==` on badge items: equal types under the custom `==`, and equal descriptions. `SameItemIffSameBadge` is its partner. |
| BadgeAsset.SameTypeIsEquivalence | PlatformUIKit/Views/Cells/Badge/BadgeAsset/BadgeAsset.swift:34-46 | Badge-type equality is reflexive, symmetric and transitive. |
| BadgeAsset.SameTypeIsEqualityExceptProgress | PlatformUIKit/Views/Cells/Badge/BadgeAsset/BadgeAsset.swift:37-45 | Distinct cases are unequal, and outside `progress` the equality is plain equality. Any two progress badges are equal. |
| BadgeAsset.SameItemIffSameBadge | PlatformUIKit/Views/Cells/Badge/BadgeAsset/BadgeAsset.swift:26-77 | Two badge items are equal exactly when they present the same kind of badge with the same text. |
| BadgeAsset.ProgressModelIgnoredByEquality | PlatformUIKit/Views/Cells/Badge/BadgeAsset/BadgeAsset.swift:41-42 | Items that differ only in their circle model are equal, yet they present different circles. |
| BadgeAsset.Present | PlatformUIKit/Views/Cells/Badge/BadgeAsset/BadgeAsset.swift:66-77 | The mapping is total: default to default, destructive to destructive, verified to affirmative, and progress to progress with the same model. The description is carried through. |
| BadgeAsset.PresentState | PlatformUIKit/Views/Cells/Badge/BadgeAsset/BadgeAsset.swift:116-123 | Loading stays loading, and a loaded item becomes its presentation. |
| BadgeAsset.PresentStateRespectsEquality | PlatformUIKit/Views/Cells/Badge/BadgeAsset/BadgeAsset.swift:116-123 | Equal interaction states present the same badge. |
| BadgeAsset.StockBadge | PlatformUIKit/Views/Cells/Badge/BadgeAsset/BadgeAsset.swift:84-112 | Verified is `verified`, unverified and unconfirmed are `destructive`, and connect, confirmed and connected are `default`. Each has its own text. |
| BadgeAsset.StockBadgePresentation | PlatformUIKit/Views/Cells/Badge/BadgeAsset/BadgeAsset.swift:84-112 | The predefined items present as affirmative, destructive or default accordingly, never as progress. |

## Left out

- The reactive plumbing is replaced by sequential method calls: relays, `observeOn`/`subscribeOn`, schedulers and `flatMap` chains. One evaluation of `valueObservable` is `React`, and the fetch hooks are separate methods, so interleavings such as a flush during a fetch stay expressible.
- The throttled fetch priority is left out because it is timer- and scheduler-driven.
- `valueSingle` (`take(1)`) is left out. It is `valueObservable` cut after its first delivered value.
- `CachedValueRefreshControlOld` is not part of this model. The refresh-due verdict is a Boolean input, `Date()` is an integer input, and the recorded date is kept in a field.
- Subscriptions to `valueObservable` are not tracked. The first fetch error, `nullReference` included, ends that subscriber's stream. In a trace, the deliveries after such an error go to new subscribers.
- Weak captures are modelled as an "owner alive" flag. The cache itself being freed during a fetch is not modelled.
- `debugDescription` strings are not modelled.
- CachedValue.Access: every value of one observable fetch is stamped with the same `now`.
- CachedValue.CachedValueOld.React: a single-shaped fetch must be given a run with one value or one error, which is what a `Single` produces.
- `SettingsScreenPresenter`'s cell presenters are abstracted to cell types. The linked cards are a parameter that stands for the linked-cards relay's current value.
- The keychain-backed `guid`, `sharedKey` and swipe addresses of `BlockchainSettings` are not modelled. The keychain PIN is modelled only as a field that `clearPin()` clears.
- `reset()`'s calls to the KYC settings, the announcement recorder and the service cache are not modelled, and neither are its log lines.
- `clear()` is not modelled. It removes the app's whole persistent domain.
- `migrateLegacyKeysIfNeeded` is not part of this model.
- BlockchainSettings.App.MigratePasswordAndPinIfNeeded: `Pin.save` and the legacy repository's password store are not part of this model. The method returns what it would hand to them.
- `walletIntroLatestLocation` is not modelled, neither its setter, which stores the value as given, nor its getter, which decodes stored JSON data. Only its removal by `reset()` is.
- The fiat currency symbols are not modelled. They read another service.
- BlockchainSettings.AssetTypeFromRaw: `LegacyAssetType` is declared outside these files. Its cases and raw values are taken as bitcoin 0, ether 1, bitcoin cash 2, stellar 3, pax 4 and tether 5. Only bitcoin's raw value being registered, and unknown raw values reading back as bitcoin, rest on the source.
- `CryptoCurrency.allEnabled` is a predicate parameter.
- The user defaults' type coercions are modelled only between Boolean and integer values. In the model a stored string reads as false or 0, and a stored number reads as no string. The real user defaults convert these instead: `bool(forKey:)` and `integer(forKey:)` parse strings, and `string(forKey:)` renders numbers.
- The other files of the repository are not modelled: address validation, the keyboard observer, network clients, services, routers and tests.
