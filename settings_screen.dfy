/**
 * The arrangement of the settings screen (`SettingsScreenPresenter`): which
 * sections it shows, in which order, and which cells each section holds.
 * Cell presenters are abstracted away: a cell is its type, and a linked-card
 * cell carries the card's presenter as an opaque value of type `C`.
 */
module SettingsScreen {

  datatype Section = Profile | Preferences | Connect | Cards | Security | About

  datatype BadgeCell = Limits | EmailVerification | MobileVerification | CurrencyPreference | PitConnection | RecoveryPhrase

  datatype ClipboardCell = WalletID

  datatype PlainCell = LoginToWebWallet | ChangePassword | ChangePIN | RateUs | TermsOfService | PrivacyPolicy | CookiesPolicy

  datatype SwitchCell = EmailNotifications | Sms2FA | BioAuthentication | SwipeToReceive

  datatype CardsCell<C> = LinkedCard(presenter: C) | AddCard

  /** The type of a settings cell, `SettingsSectionType.CellType`. */
  datatype CellType<C> =
    | Badge(badge: BadgeCell)
    | Clipboard(clipboard: ClipboardCell)
    | Plain(plain: PlainCell)
    | Switch(toggle: SwitchCell)
    | CardsRow(cards: CardsCell<C>)

  /** One section of the screen with its cells, `SettingsSectionViewModel`. */
  datatype SectionViewModel<C> = SectionViewModel(sectionType: Section, items: seq<CellType<C>>)

  // ------------------------------------------------------------ sections

  /**
   * The order of the sections, stated directly: the Exchange connection right
   * after the preferences and the cards right before "about", each only when
   * its feature is enabled.
   */
  function SectionOrder(exchangeEnabled: bool, simpleBuyCardsEnabled: bool): seq<Section>
  {
    [Profile, Preferences]
      + (if exchangeEnabled then [Connect] else [])
      + [Security]
      + (if simpleBuyCardsEnabled then [Cards] else [])
      + [About]
  }

  /** `sections(exchangeEnabled:simpleBuyCardsEnabled:)`: append the optional cards, then insert connect at index 2. */
  method Sections(exchangeEnabled: bool, simpleBuyCardsEnabled: bool) returns (sections: seq<Section>)
    ensures sections == SectionOrder(exchangeEnabled, simpleBuyCardsEnabled)
  {
    sections := [Profile, Preferences, Security];
    if simpleBuyCardsEnabled {
      sections := sections + [Cards];
    }
    sections := sections + [About];
    if exchangeEnabled {
      sections := sections[..2] + [Connect] + sections[2..];
    }
  }

  /**
   * The screen always opens with profile and preferences and closes with
   * "about"; connect is present exactly when the Exchange is enabled, at index
   * 2 before security; cards exactly when cards are enabled, just before
   * "about"; there are four sections plus one per enabled feature, none twice.
   */
  lemma SectionOrderShape(exchangeEnabled: bool, simpleBuyCardsEnabled: bool)
    ensures var s := SectionOrder(exchangeEnabled, simpleBuyCardsEnabled);
            && |s| == 4 + (if exchangeEnabled then 1 else 0) + (if simpleBuyCardsEnabled then 1 else 0)
            && s[0] == Profile && s[1] == Preferences && s[|s| - 1] == About
            && (Connect in s <==> exchangeEnabled)
            && (exchangeEnabled ==> s[2] == Connect && s[3] == Security)
            && (!exchangeEnabled ==> s[2] == Security)
            && (Cards in s <==> simpleBuyCardsEnabled)
            && (simpleBuyCardsEnabled ==> s[|s| - 2] == Cards)
            && Profile in s && Preferences in s && Security in s && About in s
            && forall i, j :: 0 <= i < j < |s| ==> s[i] != s[j]
  {
  }

  // --------------------------------------------------------------- cells

  /** The five fixed cells of the security section. */
  function SecurityFixedCells<C>(): seq<CellType<C>>
  {
    [Switch(Sms2FA), Plain(ChangePassword), Badge(RecoveryPhrase), Plain(ChangePIN), Switch(BioAuthentication)]
  }

  /**
   * The cells of a section (`cellArrangement(for:)`): fixed lists, except that
   * the cards section lists one cell per linked card then "add card", and the
   * security section gains swipe-to-receive when that feature is enabled.
   */
  function CellArrangement<C>(section: Section, linkedCards: seq<C>, swipeToReceiveEnabled: bool): (cells: seq<CellType<C>>)
    ensures section == Profile ==> |cells| == 5
    ensures section == Preferences ==> |cells| == 2
    ensures section == Connect ==> cells == [Badge(PitConnection)]
    ensures section == About ==> |cells| == 4 && forall i :: 0 <= i < 4 ==> cells[i].Plain?
    ensures section == Cards ==>
              && |cells| == |linkedCards| + 1
              && (forall i :: 0 <= i < |linkedCards| ==> cells[i] == CardsRow(LinkedCard(linkedCards[i])))
              && cells[|linkedCards|] == CardsRow(AddCard)
    ensures section == Security ==>
              && |cells| == 5 + (if swipeToReceiveEnabled then 1 else 0)
              && cells[..5] == SecurityFixedCells()
              && (Switch(SwipeToReceive) in cells <==> swipeToReceiveEnabled)
    ensures section != Cards ==> forall i :: 0 <= i < |cells| ==> !cells[i].CardsRow?
  {
    match section
    case Profile =>
      [Badge(Limits), Clipboard(WalletID), Badge(EmailVerification), Badge(MobileVerification), Plain(LoginToWebWallet)]
    case Preferences =>
      [Switch(EmailNotifications), Badge(CurrencyPreference)]
    case Connect =>
      [Badge(PitConnection)]
    case Cards =>
      seq(|linkedCards|, i requires 0 <= i < |linkedCards| => CardsRow(LinkedCard(linkedCards[i]))) + [CardsRow(AddCard)]
    case Security =>
      SecurityFixedCells() + (if swipeToReceiveEnabled then [Switch(SwipeToReceive)] else [])
    case About =>
      [Plain(RateUs), Plain(TermsOfService), Plain(PrivacyPolicy), Plain(CookiesPolicy)]
  }

  /** `cellArrangement(for:)` as written: the cards and security branches grow a local list. */
  method ArrangeCells<C>(section: Section, linkedCards: seq<C>, swipeToReceiveEnabled: bool) returns (cells: seq<CellType<C>>)
    ensures cells == CellArrangement(section, linkedCards, swipeToReceiveEnabled)
  {
    match section {
      case Cards =>
        cells := seq(|linkedCards|, i requires 0 <= i < |linkedCards| => CardsRow(LinkedCard(linkedCards[i])));
        cells := cells + [CardsRow(AddCard)];
      case Security =>
        cells := [Switch(Sms2FA), Plain(ChangePassword), Badge(RecoveryPhrase), Plain(ChangePIN), Switch(BioAuthentication)];
        if swipeToReceiveEnabled {
          cells := cells + [Switch(SwipeToReceive)];
        }
      case _ =>
        cells := CellArrangement(section, linkedCards, swipeToReceiveEnabled);
    }
  }

  /**
   * `sectionObservable`: one view model per arranged section, in order, each
   * holding that section's cells.
   */
  function SectionViewModels<C>(exchangeEnabled: bool, simpleBuyCardsEnabled: bool, linkedCards: seq<C>, swipeToReceiveEnabled: bool)
    : (r: seq<SectionViewModel<C>>)
    ensures |r| == |SectionOrder(exchangeEnabled, simpleBuyCardsEnabled)|
    ensures forall i :: 0 <= i < |r| ==>
              && r[i].sectionType == SectionOrder(exchangeEnabled, simpleBuyCardsEnabled)[i]
              && r[i].items == CellArrangement(r[i].sectionType, linkedCards, swipeToReceiveEnabled)
  {
    var order := SectionOrder(exchangeEnabled, simpleBuyCardsEnabled);
    seq(|order|, i requires 0 <= i < |order| =>
      SectionViewModel(order[i], CellArrangement(order[i], linkedCards, swipeToReceiveEnabled)))
  }

  /** Some section of the screen holds cell `c`. */
  ghost predicate OnScreen<C>(vms: seq<SectionViewModel<C>>, c: CellType<C>)
  {
    exists i, j :: 0 <= i < |vms| && 0 <= j < |vms[i].items| && vms[i].items[j] == c
  }

  /** The "add card" cell is on screen exactly when cards are enabled, and then so is every linked card. */
  lemma ScreenCards<C>(exchangeEnabled: bool, simpleBuyCardsEnabled: bool, linkedCards: seq<C>, swipeToReceiveEnabled: bool)
    ensures var vms := SectionViewModels(exchangeEnabled, simpleBuyCardsEnabled, linkedCards, swipeToReceiveEnabled);
            && (OnScreen(vms, CardsRow(AddCard)) <==> simpleBuyCardsEnabled)
            && (simpleBuyCardsEnabled ==> forall k :: 0 <= k < |linkedCards| ==> OnScreen(vms, CardsRow(LinkedCard(linkedCards[k]))))
  {
    var vms := SectionViewModels(exchangeEnabled, simpleBuyCardsEnabled, linkedCards, swipeToReceiveEnabled);
    var order := SectionOrder(exchangeEnabled, simpleBuyCardsEnabled);
    SectionOrderShape(exchangeEnabled, simpleBuyCardsEnabled);
    if simpleBuyCardsEnabled {
      var cardsAt := |order| - 2;
      assert vms[cardsAt].sectionType == Cards;
      assert vms[cardsAt].items[|linkedCards|] == CardsRow(AddCard);
      forall k | 0 <= k < |linkedCards|
        ensures OnScreen(vms, CardsRow(LinkedCard(linkedCards[k])))
      {
        assert vms[cardsAt].items[k] == CardsRow(LinkedCard(linkedCards[k]));
      }
    } else {
      forall i, j | 0 <= i < |vms| && 0 <= j < |vms[i].items|
        ensures vms[i].items[j] != CardsRow(AddCard)
      {
        assert vms[i].sectionType != Cards;
      }
    }
  }

  /** Only the security section can hold the swipe-to-receive switch, and only when it is enabled. */
  lemma SwipeOnlyInSecurity<C>(section: Section, linkedCards: seq<C>, swipeToReceiveEnabled: bool, j: int)
    requires 0 <= j < |CellArrangement(section, linkedCards, swipeToReceiveEnabled)|
    requires CellArrangement(section, linkedCards, swipeToReceiveEnabled)[j] == Switch(SwipeToReceive)
    ensures section == Security && swipeToReceiveEnabled
  {
    var cells := CellArrangement(section, linkedCards, swipeToReceiveEnabled);
    assert cells[j] in cells;
  }

  /** The swipe-to-receive switch is on screen exactly when that feature is enabled. */
  lemma ScreenSwipeToReceive<C>(exchangeEnabled: bool, simpleBuyCardsEnabled: bool, linkedCards: seq<C>, swipeToReceiveEnabled: bool)
    ensures var vms := SectionViewModels(exchangeEnabled, simpleBuyCardsEnabled, linkedCards, swipeToReceiveEnabled);
            OnScreen(vms, Switch(SwipeToReceive)) <==> swipeToReceiveEnabled
  {
    var vms := SectionViewModels(exchangeEnabled, simpleBuyCardsEnabled, linkedCards, swipeToReceiveEnabled);
    var order := SectionOrder(exchangeEnabled, simpleBuyCardsEnabled);
    SectionOrderShape(exchangeEnabled, simpleBuyCardsEnabled);
    if swipeToReceiveEnabled {
      var securityAt := if exchangeEnabled then 3 else 2;
      assert vms[securityAt].sectionType == Security;
      assert vms[securityAt].items[5] == Switch(SwipeToReceive);
    } else {
      forall i, j | 0 <= i < |vms| && 0 <= j < |vms[i].items|
        ensures vms[i].items[j] != Switch(SwipeToReceive)
      {
        if vms[i].items[j] == Switch(SwipeToReceive) {
          SwipeOnlyInSecurity(vms[i].sectionType, linkedCards, swipeToReceiveEnabled, j);
        }
      }
    }
  }
}
