/**
 * Badges (`BadgeAsset`): the interaction-level badge item a settings cell
 * receives, its equality, its translation into the view model the cell shows,
 * and the lifting of that translation to a loading state.
 *
 * The progress badge carries a circle view model, an object of the UI layer;
 * here it is an opaque value of type `M`.  Localized strings are an input.
 */
module BadgeAsset {

  /** `Value.Interaction.BadgeItem.BadgeType`. */
  datatype BadgeType<M> = Default | Verified | Destructive | Progress(model: M)

  /** `Value.Interaction.BadgeItem`. */
  datatype BadgeItem<M> = BadgeItem(badgeType: BadgeType<M>, description: string)

  /** The badge view model a presentation item holds, by the factory that built it. */
  datatype BadgeViewModel<M> =
    | DefaultBadge(text: string)
    | DestructiveBadge(text: string)
    | Affirmative(text: string)
    | ProgressBadge(text: string, circle: M)

  /** `LoadingState`, as used for the badge's interaction and presentation states. */
  datatype LoadingState<T> = Loading | Loaded(next: T)

  // ------------------------------------------------------------- equality

  /** The custom `==` on badge types: same case, and two progress badges are equal whatever their models. */
  predicate SameType<M>(a: BadgeType<M>, b: BadgeType<M>)
  {
    match (a, b)
    case (Default, Default) => true
    case (Verified, Verified) => true
    case (Destructive, Destructive) => true
    case (Progress(_), Progress(_)) => true
    case _ => false
  }

  /** The synthesized `==` on badge items: equal types and equal descriptions. */
  predicate SameItem<M>(a: BadgeItem<M>, b: BadgeItem<M>)
  {
    SameType(a.badgeType, b.badgeType) && a.description == b.description
  }

  /** Badge-type equality is an equivalence relation. */
  lemma SameTypeIsEquivalence<M>(a: BadgeType<M>, b: BadgeType<M>, c: BadgeType<M>)
    ensures SameType(a, a)
    ensures SameType(a, b) ==> SameType(b, a)
    ensures SameType(a, b) && SameType(b, c) ==> SameType(a, c)
  {
  }

  /** Apart from the progress case it is plain equality; two progress badges are always equal. */
  lemma SameTypeIsEqualityExceptProgress<M>(a: BadgeType<M>, b: BadgeType<M>)
    ensures !a.Progress? ==> (SameType(a, b) <==> a == b)
    ensures a.Progress? && b.Progress? ==> SameType(a, b)
  {
  }

  // --------------------------------------------------------- presentation

  /** `Value.Presentation.BadgeItem.init(with:)`. */
  function Present<M>(item: BadgeItem<M>): (r: BadgeViewModel<M>)
    ensures r.text == item.description
    ensures r.ProgressBadge? <==> item.badgeType.Progress?
    ensures r.ProgressBadge? ==> r.circle == item.badgeType.model
    ensures r.Affirmative? <==> item.badgeType == Verified
    ensures r.DestructiveBadge? <==> item.badgeType == Destructive
    ensures r.DefaultBadge? <==> item.badgeType == Default
  {
    match item.badgeType
    case Default => DefaultBadge(item.description)
    case Destructive => DestructiveBadge(item.description)
    case Verified => Affirmative(item.description)
    case Progress(model) => ProgressBadge(item.description, model)
  }

  /** The case of a badge view model, without its payload. */
  predicate SameBadge<M>(a: BadgeViewModel<M>, b: BadgeViewModel<M>)
  {
    a.text == b.text
    && a.DefaultBadge? == b.DefaultBadge?
    && a.DestructiveBadge? == b.DestructiveBadge?
    && a.Affirmative? == b.Affirmative?
    && a.ProgressBadge? == b.ProgressBadge?
  }

  /**
   * Two badge items are equal exactly when they present the same kind of badge
   * with the same text: the custom equality ignores precisely what the
   * presentation takes from the progress model.
   */
  lemma SameItemIffSameBadge<M>(a: BadgeItem<M>, b: BadgeItem<M>)
    ensures SameItem(a, b) <==> SameBadge(Present(a), Present(b))
  {
  }

  /** Items that differ only in their progress model are equal, yet present different circles. */
  lemma ProgressModelIgnoredByEquality<M>(text: string, m1: M, m2: M)
    requires m1 != m2
    ensures SameItem(BadgeItem(Progress(m1), text), BadgeItem(Progress(m2), text))
    ensures Present(BadgeItem(Progress(m1), text)) != Present(BadgeItem(Progress(m2), text))
  {
  }

  /** `LoadingState.init(with:)` for badge items: keep loading, present a loaded item. */
  function PresentState<M>(state: LoadingState<BadgeItem<M>>): (r: LoadingState<BadgeViewModel<M>>)
    ensures r.Loading? <==> state.Loading?
    ensures r.Loaded? ==> r.next == Present(state.next) && r.next.text == state.next.description
  {
    match state
    case Loading => Loading
    case Loaded(item) => Loaded(Present(item))
  }

  /** The presented state of equal interaction states shows the same badge. */
  lemma PresentStateRespectsEquality<M>(a: LoadingState<BadgeItem<M>>, b: LoadingState<BadgeItem<M>>)
    requires a.Loading? == b.Loading?
    requires a.Loaded? ==> SameItem(a.next, b.next)
    ensures PresentState(a).Loading? == PresentState(b).Loading?
    ensures PresentState(a).Loaded? ==> SameBadge(PresentState(a).next, PresentState(b).next)
  {
    if a.Loaded? {
      SameItemIffSameBadge(a.next, b.next);
    }
  }

  // --------------------------------------------------------- stock items

  /** The predefined badge items, each with its localized text. */
  datatype StockItem = VerifiedItem | Unverified | Connect | Confirmed | Unconfirmed | Connected

  /** The predefined item `s`, with `localized(s)` as its description. */
  function StockBadge<M>(s: StockItem, localized: StockItem -> string): (r: BadgeItem<M>)
    ensures r.description == localized(s)
    ensures r.badgeType == Verified <==> s == VerifiedItem
    ensures r.badgeType == Destructive <==> s in {Unverified, Unconfirmed}
    ensures r.badgeType == Default <==> s in {Connect, Confirmed, Connected}
  {
    var t := match s
      case VerifiedItem => Verified
      case Unverified => Destructive
      case Unconfirmed => Destructive
      case Connect => Default
      case Confirmed => Default
      case Connected => Default;
    BadgeItem(t, localized(s))
  }

  /** Verified shows as affirmative, unverified and unconfirmed as destructive, and the rest as default badges. */
  lemma StockBadgePresentation<M>(s: StockItem, localized: StockItem -> string)
    ensures var v := Present(StockBadge<M>(s, localized));
            && v.text == localized(s)
            && (v.Affirmative? <==> s == VerifiedItem)
            && (v.DestructiveBadge? <==> s in {Unverified, Unconfirmed})
            && (v.DefaultBadge? <==> s in {Connect, Confirmed, Connected})
            && !v.ProgressBadge?
  {
  }
}
