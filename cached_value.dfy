/**
 * The in-memory cache of `CachedValueOld`: one mutable state cell, driven by
 * refresh-control actions, subscriptions, a reaction to each state it holds,
 * and the hooks of the fetches it starts.
 *
 * The reactive plumbing (schedulers, relays, flatMap) is replaced by sequential
 * method calls: each method of `CachedValueOld` is one event delivered on the
 * cache's scheduler.  The clock, the refresh-due decision of the (unshown)
 * refresh control, the liveness of a weakly held fetch owner and what the bound
 * fetch closure produces are parameters.
 */
module CachedValue {
  import W = Wrappers

  // ------------------------------------------------------------------ types

  /** An element of the internal stream; only public elements reach subscribers. */
  datatype StreamType<V> = Public(payload: V) | Private(payload: V) | None
  {
    predicate IsPublic() { Public? }

    /** The carried value: the payload of a public or private element, nothing for `none`. */
    function Value(): (r: W.Option<V>)
      ensures r.Some? <==> (Public? || Private?)
      ensures r.Some? ==> r.value == payload
    {
      match this
      case Public(v) => W.Some(v)
      case Private(v) => W.Some(v)
      case None => W.None
    }
  }

  /** The state held by the cache's single state cell. */
  datatype StreamState<V> =
    | Empty                          // nothing calculated yet
    | Flush                          // the data should be flushed
    | Invalid(shouldFetch: bool)     // erred or flushed; fetch again only when asked to
    | Calculating                    // a fetch is in flight
    | Stream(streamType: StreamType<V>)
  {
    /** The element held by a `stream` state. */
    function AsStream(): (r: W.Option<StreamType<V>>)
      ensures r.Some? <==> Stream?
      ensures r.Some? ==> r.value == streamType
    {
      if Stream? then W.Some(streamType) else W.None
    }

    predicate IsCalculating() { Calculating? }

    predicate IsInvalid() { Invalid? }
  }

  /** What the refresh control asks of the cache: fetch afresh, or flush. */
  datatype RefreshAction = RefetchAction | FlushAction

  /** The shape of the bound fetch closure. */
  datatype FetchKind = ObservableFetch | SingleFetch

  /**
   * The bound fetch closure: its shape, and whether it was registered with
   * `setFetch(weak:fetch:)`, so that it fails with `nullReference` once its
   * owner is gone.
   */
  datatype FetchMethod = FetchMethod(kind: FetchKind, weakOwner: bool)

  /**
   * The errors that flow through the cache: the three `CacheError` cases,
   * `ToolKitError.nullReference`, and any other error of the fetch closure.
   */
  datatype FetchError = FetchFailed | UnsetFetchClosure | InternalError | NullReference | Underlying

  /**
   * What one subscription to a fetch closure produces: its values in order,
   * then either completion or an error.
   */
  datatype FetchRun<V> = FetchRun(values: seq<V>, failure: W.Option<FetchError>)

  /** The runs a `Single` can produce: one value, or an error and no value. */
  predicate SingleShaped<V>(run: FetchRun<V>)
  {
    (|run.values| == 1 && run.failure.None?) || (|run.values| == 0 && run.failure.Some?)
  }

  /** The mutable state of a cache: its state cell, bound fetch and last refresh date. */
  datatype Snapshot<V> = Snapshot(state: StreamState<V>, fetch: W.Option<FetchMethod>, lastRefresh: W.Option<int>)

  /** The code only ever stores private elements in the state cell. */
  predicate StoresOnlyPrivate<V>(s: StreamState<V>)
  {
    s.Stream? ==> s.streamType.Private?
  }

  predicate HoldsPrivate<V>(s: StreamState<V>)
  {
    s.Stream? && s.streamType.Private?
  }

  // ------------------------------------------------- what subscribers see

  /** `.filter { $0.isPublic }` */
  function PublicOnly<V>(es: seq<StreamType<V>>): (r: seq<StreamType<V>>)
    ensures |r| <= |es|
    ensures forall i :: 0 <= i < |r| ==> r[i].Public?
  {
    if |es| == 0 then []
    else (if es[0].IsPublic() then [es[0]] else []) + PublicOnly(es[1..])
  }

  /** `.compactMap { $0.value }` */
  function CompactValues<V>(es: seq<StreamType<V>>): (r: seq<V>)
    ensures |r| <= |es|
    ensures (forall i :: 0 <= i < |es| ==> es[i].None?) ==> r == []
  {
    if |es| == 0 then []
    else (if es[0].Value().Some? then [es[0].Value().value] else []) + CompactValues(es[1..])
  }

  /** The values a subscriber of `valueObservable` receives from the internal elements. */
  function Delivered<V>(es: seq<StreamType<V>>): (r: seq<V>)
    ensures |r| <= |es|
  {
    CompactValues(PublicOnly(es))
  }

  lemma {:induction false} PublicOnlyKeepsPublic<V>(es: seq<StreamType<V>>)
    ensures |PublicOnly(es)| <= |es|
    ensures forall i :: 0 <= i < |PublicOnly(es)| ==> PublicOnly(es)[i].Public? && PublicOnly(es)[i] in es
    ensures (forall i :: 0 <= i < |es| ==> !es[i].Public?) ==> PublicOnly(es) == []
  {
    if |es| > 0 {
      PublicOnlyKeepsPublic(es[1..]);
      var rest := PublicOnly(es[1..]);
      var head := if es[0].IsPublic() then [es[0]] else [];
      assert PublicOnly(es) == head + rest;
      forall i | 0 <= i < |PublicOnly(es)|
        ensures PublicOnly(es)[i].Public? && PublicOnly(es)[i] in es
      {
        if i >= |head| {
          assert PublicOnly(es)[i] == rest[i - |head|];
          assert rest[i - |head|] in es[1..];
        }
      }
    }
  }

  lemma {:induction false} CompactValuesOfPublic<V>(es: seq<StreamType<V>>)
    requires forall i :: 0 <= i < |es| ==> es[i].Public?
    ensures |CompactValues(es)| == |es|
    ensures forall i :: 0 <= i < |es| ==> CompactValues(es)[i] == es[i].payload
  {
    if |es| > 0 {
      CompactValuesOfPublic(es[1..]);
    }
  }

  /**
   * Only public elements reach subscribers, each as its own payload and in
   * order; a stream of private and `none` elements delivers nothing.
   */
  lemma DeliveredOnlyPublic<V>(es: seq<StreamType<V>>)
    ensures |Delivered(es)| <= |es|
    ensures forall i :: 0 <= i < |Delivered(es)| ==> Public(Delivered(es)[i]) in es
    ensures (forall i :: 0 <= i < |es| ==> !es[i].Public?) ==> Delivered(es) == []
  {
    PublicOnlyKeepsPublic(es);
    CompactValuesOfPublic(PublicOnly(es));
    forall i | 0 <= i < |Delivered(es)|
      ensures Public(Delivered(es)[i]) in es
    {
      assert Public(Delivered(es)[i]) == PublicOnly(es)[i];
    }
  }

  /** The filter keeps every public element of both halves, in their order. */
  lemma {:induction false} PublicOnlyAppend<V>(a: seq<StreamType<V>>, b: seq<StreamType<V>>)
    ensures PublicOnly(a + b) == PublicOnly(a) + PublicOnly(b)
    decreases |a|
  {
    if |a| > 0 {
      assert (a + b)[1..] == a[1..] + b;
      PublicOnlyAppend(a[1..], b);
    } else {
      assert a + b == b;
    }
  }

  /** The compact map keeps the payload of every element that carries one, in order. */
  lemma {:induction false} CompactValuesAppend<V>(a: seq<StreamType<V>>, b: seq<StreamType<V>>)
    ensures CompactValues(a + b) == CompactValues(a) + CompactValues(b)
    decreases |a|
  {
    if |a| > 0 {
      assert (a + b)[1..] == a[1..] + b;
      CompactValuesAppend(a[1..], b);
    } else {
      assert a + b == b;
    }
  }

  /**
   * Delivery is element by element: a public element delivers its payload, a
   * private or `none` element delivers nothing, and the deliveries of a stream
   * are those of its elements in order.
   */
  lemma DeliveredByElement<V>(a: seq<StreamType<V>>, b: seq<StreamType<V>>, v: V)
    ensures Delivered(a + b) == Delivered(a) + Delivered(b)
    ensures Delivered([Public(v)]) == [v]
    ensures Delivered([Private(v)]) == []
    ensures Delivered<V>([None]) == []
  {
    PublicOnlyAppend(a, b);
    CompactValuesAppend(PublicOnly(a), PublicOnly(b));
    assert PublicOnly([Public(v)]) == [Public(v)] + PublicOnly<V>([]);
    assert CompactValues([Public(v)]) == [v] + CompactValues<V>([]);
    assert PublicOnly([Private(v)]) == [] + PublicOnly<V>([]);
    assert PublicOnly<V>([None]) == [] + PublicOnly<V>([]);
  }

  // ---------------------------------------------------- the transition rules

  /** The refresh control's action, as bound to the state cell in `init`. */
  function ActionState<V>(action: RefreshAction): (s: StreamState<V>)
    ensures s.Empty? <==> action.RefetchAction?
    ensures s.Flush? <==> action.FlushAction?
  {
    match action
    case RefetchAction => Empty
    case FlushAction => Flush
  }

  /** The `onSubscribe` hook of `valueObservable`. */
  function Subscribed<V>(s: StreamState<V>): (r: StreamState<V>)
    ensures s == Invalid(false) ==> r == Invalid(true)
    ensures s != Invalid(false) ==> r == s
  {
    if s.IsInvalid() && !s.shouldFetch then Invalid(true) else s
  }

  /** What `valueObservable` does on seeing a state: start a fetch, or emit one element. */
  datatype Reaction<V> = StartFetch | Emit(element: StreamType<V>)

  /** The selector of `valueObservable`'s flatMap; `shouldRefresh` is the refresh control's verdict. */
  function ReactionTo<V>(s: StreamState<V>, shouldRefresh: bool): (r: Reaction<V>)
    ensures r.StartFetch? <==> s.Empty? || s == Invalid(true) || (HoldsPrivate(s) && shouldRefresh)
    ensures r.Emit? && HoldsPrivate(s) ==> r.element == Public(s.streamType.payload)
    ensures r.Emit? && !HoldsPrivate(s) ==> r.element == None
  {
    match s
    case Empty => StartFetch
    case Calculating => Emit(None)
    case Flush => Emit(None)
    case Invalid(shouldFetch) => if shouldFetch then StartFetch else Emit(None)
    case Stream(Private(v)) => if shouldRefresh then StartFetch else Emit(Public(v))
    case Stream(_) => Emit(None)
  }

  /** The state after a reaction that emits: only `flush` is rewritten, to `invalid(false)`. */
  function ReactedState<V>(s: StreamState<V>): (r: StreamState<V>)
    ensures s.Flush? ==> r == Invalid(false)
    ensures !s.Flush? ==> r == s
  {
    if s.Flush? then Invalid(false) else s
  }

  /** The fetch `onSubscribe` hook. */
  function FetchSubscribed<V>(c: Snapshot<V>): (r: Snapshot<V>)
    ensures r.state.IsCalculating() && r.fetch == c.fetch && r.lastRefresh == c.lastRefresh
  {
    c.(state := Calculating)
  }

  /** The fetch `onSuccess`/`onNext` hook: record the refresh date, hold the value privately. */
  function FetchProduced<V>(c: Snapshot<V>, v: V, now: int): (r: Snapshot<V>)
    ensures HoldsPrivate(r.state) && r.state.streamType.payload == v
    ensures r.lastRefresh == W.Some(now) && r.fetch == c.fetch
  {
    c.(state := Stream(Private(v)), lastRefresh := W.Some(now))
  }

  /** The fetch `onDispose` hook. */
  function FetchDisposed<V>(c: Snapshot<V>): (r: Snapshot<V>)
    ensures !r.state.IsCalculating()
    ensures !c.state.IsCalculating() ==> r == c
    ensures r.fetch == c.fetch && r.lastRefresh == c.lastRefresh
  {
    if c.state.IsCalculating() then c.(state := Empty) else c
  }

  /** The `onNext` hook applied to each produced value in turn. */
  function Produce<V>(c: Snapshot<V>, values: seq<V>, now: int): Snapshot<V>
    decreases |values|
  {
    if |values| == 0 then c
    else FetchProduced(Produce(c, values[..|values| - 1], now), values[|values| - 1], now)
  }

  lemma {:induction false} ProduceLast<V>(c: Snapshot<V>, values: seq<V>, now: int)
    requires |values| > 0
    ensures Produce(c, values, now) == c.(state := Stream(Private(values[|values| - 1])), lastRefresh := W.Some(now))
  {
    if |values| > 1 {
      ProduceLast(c, values[..|values| - 1], now);
    }
  }

  /**
   * A whole fetch subscription run without interruption: subscribe, one hook
   * call per value, dispose.  It ends holding the last value privately, with the
   * refresh date recorded, or back at `empty` when nothing was produced.
   */
  function Lifecycle<V>(c: Snapshot<V>, values: seq<V>, now: int): (r: Snapshot<V>)
    ensures |values| == 0 ==> r == c.(state := Empty)
    ensures |values| > 0 ==> r == c.(state := Stream(Private(values[|values| - 1])), lastRefresh := W.Some(now))
  {
    if |values| > 0 then ProduceLast(FetchSubscribed(c), values, now); FetchDisposed(Produce(FetchSubscribed(c), values, now))
    else FetchDisposed(Produce(FetchSubscribed(c), values, now))
  }

  /** The bound closure: a weakly bound one whose owner is gone fails with `nullReference`. */
  function Invoke<V>(m: FetchMethod, ownerAlive: bool, run: FetchRun<V>): (r: FetchRun<V>)
    ensures m.weakOwner && !ownerAlive ==> r.values == [] && r.failure == W.Some(NullReference)
    ensures !m.weakOwner || ownerAlive ==> r == run
  {
    if m.weakOwner && !ownerAlive then FetchRun([], W.Some(NullReference)) else run
  }

  /** The three branches of `valueObservable`'s `catchError`. */
  datatype Recovery = Swallow | Rethrow | InvalidateAndFail

  function RecoveryFor(e: FetchError): (r: Recovery)
    ensures r.Swallow? <==> e.NullReference?
    ensures r.Rethrow? <==> e.FetchFailed?
  {
    match e
    case NullReference => Swallow
    case FetchFailed => Rethrow
    case _ => InvalidateAndFail
  }

  /** The effect of one evaluation of `valueObservable`'s selector. */
  datatype Outcome<V> = Outcome(after: Snapshot<V>, emitted: seq<StreamType<V>>, error: W.Option<FetchError>)

  /** `n` elements `none`: a fetch started by `valueObservable` maps every value to `none`. */
  function Ticks<V>(n: nat): (r: seq<StreamType<V>>)
    ensures |r| == n
    ensures forall i :: 0 <= i < n ==> r[i].None?
  {
    seq(n, _ => None)
  }

  /** The `fetch` closure of `valueObservable`, followed by its `catchError`. */
  function FetchPath<V>(c: Snapshot<V>, ownerAlive: bool, run: FetchRun<V>, now: int): (o: Outcome<V>)
    ensures o.after.fetch == c.fetch
    ensures o.error.Some? ==> o.error.value == FetchFailed
    ensures c.fetch.None? ==> o == Outcome(c, [None], W.None)
    ensures c.fetch.Some? ==> !o.after.state.Calculating? && !o.after.state.Flush?
    ensures forall i :: 0 <= i < |o.emitted| ==> o.emitted[i].None?
  {
    if c.fetch.None? then Outcome(c, [None], W.None)
    else
      var produced := Invoke(c.fetch.value, ownerAlive, run);
      var done := Lifecycle(c, produced.values, now);
      var ticks := Ticks<V>(|produced.values|);
      if produced.failure.None? then Outcome(done, ticks, W.None)
      else
        match RecoveryFor(produced.failure.value)
        case Swallow => Outcome(done, ticks + [None], W.None)
        case Rethrow => Outcome(done, ticks, W.Some(FetchFailed))
        case InvalidateAndFail => Outcome(done.(state := Invalid(false)), ticks, W.Some(FetchFailed))
  }

  /**
   * One evaluation of `valueObservable` on the state the cache holds.  Errors
   * reach subscribers only as `fetchFailed`, the bound fetch never changes,
   * public elements never get stored, and private elements are never emitted.
   */
  function Access<V>(c: Snapshot<V>, shouldRefresh: bool, ownerAlive: bool, run: FetchRun<V>, now: int): (o: Outcome<V>)
    ensures o.after.fetch == c.fetch
    ensures o.error.Some? ==> o.error.value == FetchFailed
    ensures StoresOnlyPrivate(c.state) ==> StoresOnlyPrivate(o.after.state)
    ensures forall i :: 0 <= i < |o.emitted| ==> !o.emitted[i].Private?
  {
    match ReactionTo(c.state, shouldRefresh)
    case Emit(e) => Outcome(c.(state := ReactedState(c.state)), [e], W.None)
    case StartFetch => FetchPath(c, ownerAlive, run, now)
  }

  /** The values produced by the fetch one evaluation starts: none when it starts no fetch. */
  function FetchedBy<V>(c: Snapshot<V>, shouldRefresh: bool, ownerAlive: bool, run: FetchRun<V>): (r: seq<V>)
    ensures r != [] ==> ReactionTo(c.state, shouldRefresh).StartFetch? && c.fetch.Some?
    ensures forall v :: v in r ==> v in run.values
  {
    if ReactionTo(c.state, shouldRefresh).StartFetch? && c.fetch.Some? then Invoke(c.fetch.value, ownerAlive, run).values
    else []
  }

  /**
   * A subscriber receives a value from one evaluation exactly when the cache
   * holds a private value and no refresh is due; it then receives that value.
   */
  lemma AccessDelivery<V>(c: Snapshot<V>, shouldRefresh: bool, ownerAlive: bool, run: FetchRun<V>, now: int)
    ensures Delivered(Access(c, shouldRefresh, ownerAlive, run, now).emitted)
            == if HoldsPrivate(c.state) && !shouldRefresh then [c.state.streamType.payload] else []
  {
    var o := Access(c, shouldRefresh, ownerAlive, run, now);
    if HoldsPrivate(c.state) && !shouldRefresh {
      assert o.emitted == [Public(c.state.streamType.payload)];
      assert PublicOnly(o.emitted) == [Public(c.state.streamType.payload)] + PublicOnly([]);
      CompactValuesOfPublic(PublicOnly(o.emitted));
    } else {
      if ReactionTo(c.state, shouldRefresh).StartFetch? && c.fetch.Some? {
        var produced := Invoke(c.fetch.value, ownerAlive, run);
        assert forall i :: 0 <= i < |o.emitted| ==> o.emitted[i].None?;
      }
      DeliveredOnlyPublic(o.emitted);
    }
  }

  /** In state `calculating`, an evaluation starts no fetch, produces nothing and changes nothing. */
  lemma CalculatingStartsNoFetch<V>(c: Snapshot<V>, shouldRefresh: bool, ownerAlive: bool, run: FetchRun<V>, now: int)
    requires c.state.Calculating?
    ensures Access(c, shouldRefresh, ownerAlive, run, now) == Outcome(c, [None], W.None)
    ensures FetchedBy(c, shouldRefresh, ownerAlive, run) == []
  {
  }

  /**
   * How the outcome of a fetch that an evaluation starts reaches subscribers:
   * a completed run ends in the lifecycle's state with one `none` per value;
   * `nullReference` is swallowed into one more `none`; `fetchFailed` is passed
   * on; any other error leaves the cache `invalid(false)` and surfaces as
   * `fetchFailed`.
   */
  lemma FetchOutcome<V>(c: Snapshot<V>, shouldRefresh: bool, run: FetchRun<V>, now: int)
    requires ReactionTo(c.state, shouldRefresh).StartFetch? && c.fetch.Some?
    ensures var o := Access(c, shouldRefresh, true, run, now);
            && (run.failure.None? ==>
                  o.error == W.None && o.after == Lifecycle(c, run.values, now) && o.emitted == Ticks(|run.values|))
            && (run.failure == W.Some(NullReference) ==>
                  o.error == W.None && o.after == Lifecycle(c, run.values, now) && o.emitted == Ticks(|run.values|) + [None])
            && (run.failure == W.Some(FetchFailed) ==>
                  o.error == W.Some(FetchFailed) && o.after == Lifecycle(c, run.values, now) && o.emitted == Ticks(|run.values|))
            && (run.failure.Some? && run.failure.value != NullReference && run.failure.value != FetchFailed ==>
                  && o.error == W.Some(FetchFailed)
                  && o.after == Lifecycle(c, run.values, now).(state := Invalid(false))
                  && o.emitted == Ticks(|run.values|))
  {
  }

  /**
   * An evaluation that should fetch emits one `none` and raises no error when
   * no fetch is bound (state unchanged), or when the owner of a weakly bound
   * fetch is gone (the fetch's hooks leave the cache `empty`).
   */
  lemma MissingFetchEmitsNone<V>(c: Snapshot<V>, shouldRefresh: bool, ownerAlive: bool, run: FetchRun<V>, now: int)
    requires ReactionTo(c.state, shouldRefresh).StartFetch?
    ensures c.fetch.None? ==> Access(c, shouldRefresh, ownerAlive, run, now) == Outcome(c, [None], W.None)
    ensures c.fetch.Some? && c.fetch.value.weakOwner && !ownerAlive ==>
              Access(c, shouldRefresh, ownerAlive, run, now) == Outcome(c.(state := Empty), [None], W.None)
  {
    if c.fetch.Some? && c.fetch.value.weakOwner && !ownerAlive {
      assert Ticks<V>(0) == [];
    }
  }

  /**
   * A failing fetch leaves the cache `invalid(false)` and surfaces `fetchFailed`;
   * the next subscription re-arms it, a successful retry stores the new value
   * privately, and the evaluation after that delivers it.
   */
  lemma FailedFetchIsRetried<V>(c: Snapshot<V>, m: FetchMethod, v: V, now: int, later: int)
    requires c.fetch == W.Some(m) && !m.weakOwner
    requires c.state.Empty? || c.state == Invalid(true)
    ensures var failed := Access(c, false, true, FetchRun([], W.Some(Underlying)), now);
            && failed.after.state == Invalid(false)
            && failed.error == W.Some(FetchFailed)
            && Subscribed(failed.after.state) == Invalid(true)
            && var rearmed := failed.after.(state := Subscribed(failed.after.state));
               var retried := Access(rearmed, false, true, FetchRun([v], W.None), later);
               && retried.after.state == Stream(Private(v))
               && retried.after.lastRefresh == W.Some(later)
               && retried.error == W.None
               && Delivered(Access(retried.after, false, true, FetchRun([], W.None), later).emitted) == [v]
  {
    var failed := Access(c, false, true, FetchRun([], W.Some(Underlying)), now);
    var rearmed := failed.after.(state := Subscribed(failed.after.state));
    var retried := Access(rearmed, false, true, FetchRun([v], W.None), later);
    AccessDelivery(retried.after, false, true, FetchRun([], W.None), later);
  }

  // -------------------------------------------------------- event traces

  /** Everything that can happen to a cache, in the order its scheduler runs it. */
  datatype Event<V> =
    | ActionEvent(action: RefreshAction)
    | SubscribeEvent
    | AccessEvent(shouldRefresh: bool, ownerAlive: bool, run: FetchRun<V>, now: int)
    | BindEvent(binding: FetchMethod)
    | FetchStartEvent
    | FetchValueEvent(value: V, now: int)
    | FetchDisposeEvent

  function Step<V>(c: Snapshot<V>, e: Event<V>): (o: Outcome<V>)
    ensures !e.BindEvent? ==> o.after.fetch == c.fetch
    ensures !e.AccessEvent? ==> o.emitted == [] && o.error == W.None
    ensures o.error.Some? ==> o.error.value == FetchFailed
  {
    match e
    case ActionEvent(a) => Outcome(c.(state := ActionState<V>(a)), [], W.None)
    case SubscribeEvent => Outcome(c.(state := Subscribed(c.state)), [], W.None)
    case AccessEvent(shouldRefresh, ownerAlive, run, now) => Access(c, shouldRefresh, ownerAlive, run, now)
    case BindEvent(m) => Outcome(c.(fetch := W.Some(m)), [], W.None)
    case FetchStartEvent => Outcome(FetchSubscribed(c), [], W.None)
    case FetchValueEvent(v, now) => Outcome(FetchProduced(c, v, now), [], W.None)
    case FetchDisposeEvent => Outcome(FetchDisposed(c), [], W.None)
  }

  function Run<V>(c: Snapshot<V>, events: seq<Event<V>>): Snapshot<V>
    decreases |events|
  {
    if |events| == 0 then c else Run(Step(c, events[0]).after, events[1..])
  }

  /** Everything subscribers receive along a trace. */
  function RunDelivered<V>(c: Snapshot<V>, events: seq<Event<V>>): seq<V>
    decreases |events|
  {
    if |events| == 0 then []
    else Delivered(Step(c, events[0]).emitted) + RunDelivered(Step(c, events[0]).after, events[1..])
  }

  /**
   * The values one event's fetch produces: those of the fetch an evaluation
   * actually starts, or the value an `onNext` hook records.
   */
  function ProducedBy<V>(c: Snapshot<V>, e: Event<V>): seq<V>
  {
    match e
    case AccessEvent(shouldRefresh, ownerAlive, run, _) => FetchedBy(c, shouldRefresh, ownerAlive, run)
    case FetchValueEvent(v, _) => [v]
    case _ => []
  }

  /** The values the fetches of a trace produce, each event seen from the state it meets. */
  function Produced<V>(c: Snapshot<V>, events: seq<Event<V>>): seq<V>
    decreases |events|
  {
    if |events| == 0 then [] else ProducedBy(c, events[0]) + Produced(Step(c, events[0]).after, events[1..])
  }

  ghost predicate HeldIn<V>(s: StreamState<V>, pool: seq<V>)
  {
    s.Stream? && !s.streamType.None? ==> s.streamType.payload in pool
  }

  lemma StepStoresOnlyPrivate<V>(c: Snapshot<V>, e: Event<V>)
    requires StoresOnlyPrivate(c.state)
    ensures StoresOnlyPrivate(Step(c, e).after.state)
  {
  }

  /** Starting from a state that stores no public element, no trace ever stores one. */
  lemma {:induction false} RunStoresOnlyPrivate<V>(c: Snapshot<V>, events: seq<Event<V>>)
    requires StoresOnlyPrivate(c.state)
    ensures StoresOnlyPrivate(Run(c, events).state)
    decreases |events|
  {
    if |events| > 0 {
      StepStoresOnlyPrivate(c, events[0]);
      RunStoresOnlyPrivate(Step(c, events[0]).after, events[1..]);
    }
  }

  /** One evaluation delivers only a held value, and afterwards holds an earlier value or one of its run. */
  lemma AccessDeliversHeld<V>(c: Snapshot<V>, shouldRefresh: bool, ownerAlive: bool, run: FetchRun<V>, now: int, pool: seq<V>)
    requires HeldIn(c.state, pool)
    ensures HeldIn(Access(c, shouldRefresh, ownerAlive, run, now).after.state, pool + FetchedBy(c, shouldRefresh, ownerAlive, run))
    ensures forall v :: v in Delivered(Access(c, shouldRefresh, ownerAlive, run, now).emitted) ==> v in pool
  {
    var o := Access(c, shouldRefresh, ownerAlive, run, now);
    AccessDelivery(c, shouldRefresh, ownerAlive, run, now);
    if HoldsPrivate(c.state) && !shouldRefresh {
      assert Delivered(o.emitted) == [c.state.streamType.payload];
    } else {
      assert Delivered(o.emitted) == [];
    }
    AccessHoldsHeldOrFetched(c, shouldRefresh, ownerAlive, run, now, pool);
  }

  /** The state part of `AccessDeliversHeld`: a fetch leaves its last value, anything else an earlier one. */
  lemma AccessHoldsHeldOrFetched<V>(c: Snapshot<V>, shouldRefresh: bool, ownerAlive: bool, run: FetchRun<V>, now: int, pool: seq<V>)
    requires HeldIn(c.state, pool)
    ensures HeldIn(Access(c, shouldRefresh, ownerAlive, run, now).after.state, pool + FetchedBy(c, shouldRefresh, ownerAlive, run))
  {
    var fetched := FetchedBy(c, shouldRefresh, ownerAlive, run);
    if ReactionTo(c.state, shouldRefresh).StartFetch? && c.fetch.Some? {
      assert Access(c, shouldRefresh, ownerAlive, run, now) == FetchPath(c, ownerAlive, run, now);
      if |fetched| > 0 {
        assert fetched[|fetched| - 1] in pool + fetched;
      }
    }
  }

  lemma StepDeliversHeld<V>(c: Snapshot<V>, e: Event<V>, pool: seq<V>)
    requires HeldIn(c.state, pool)
    ensures HeldIn(Step(c, e).after.state, pool + ProducedBy(c, e))
    ensures forall v :: v in Delivered(Step(c, e).emitted) ==> v in pool
  {
    match e
    case AccessEvent(shouldRefresh, ownerAlive, run, now) =>
      AccessDeliversHeld(c, shouldRefresh, ownerAlive, run, now, pool);
    case _ =>
      assert Step(c, e).emitted == [];
  }

  lemma {:induction false} RunDeliversHeldOrProduced<V>(c: Snapshot<V>, events: seq<Event<V>>, pool: seq<V>)
    requires HeldIn(c.state, pool)
    ensures forall v :: v in RunDelivered(c, events) ==> v in pool + Produced(c, events)
    decreases |events|
  {
    if |events| > 0 {
      var next := Step(c, events[0]).after;
      StepDeliversHeld(c, events[0], pool);
      RunDeliversHeldOrProduced(next, events[1..], pool + ProducedBy(c, events[0]));
      assert pool + ProducedBy(c, events[0]) + Produced(next, events[1..]) == pool + Produced(c, events);
    }
  }

  /**
   * After invalidate, every value that reaches a subscriber entered the cache
   * after the flush: through a fetch an evaluation started, or through an
   * `onNext` hook, possibly of a fetch that was already running at the flush.
   * A value the cache held at the flush and no later event produced is never
   * delivered.
   */
  lemma NoStaleDeliveryAfterInvalidate<V>(c: Snapshot<V>, events: seq<Event<V>>)
    ensures var flushed := Step(c, ActionEvent(FlushAction)).after;
            forall v :: v in RunDelivered(flushed, events) ==> v in Produced(flushed, events)
  {
    var flushed := Step(c, ActionEvent(FlushAction)).after;
    RunDeliversHeldOrProduced(flushed, events, []);
    assert [] + Produced(flushed, events) == Produced(flushed, events);
  }

  /**
   * The flush does not cancel a fetch already running: its next `onNext`
   * stores the value, and the evaluation after that delivers it, though the
   * fetch started before the flush.
   */
  lemma FlushRacesRunningFetch<V>(c: Snapshot<V>, v: V, now: int, ownerAlive: bool, run: FetchRun<V>, later: int)
    ensures var running := Step(c, FetchStartEvent).after;
            var flushed := Step(running, ActionEvent(FlushAction)).after;
            RunDelivered(flushed, [FetchValueEvent(v, now), AccessEvent(false, ownerAlive, run, later)]) == [v]
  {
    var running := Step(c, FetchStartEvent).after;
    var flushed := Step(running, ActionEvent(FlushAction)).after;
    var events := [FetchValueEvent(v, now), AccessEvent(false, ownerAlive, run, later)];
    var stored := Step(flushed, events[0]).after;
    assert stored.state == Stream(Private(v));
    assert Step(stored, events[1]).emitted == [Public(v)];
    DeliveredByElement<V>([], [], v);
    DeliveredOnlyPublic<V>([]);
    assert events[1..][1..] == [];
    assert RunDelivered(Step(stored, events[1]).after, events[1..][1..]) == [];
    assert Delivered(Step(flushed, events[0]).emitted) == [];
  }

  /**
   * Single flight is not guaranteed: while a fetch is running, the refresh
   * control's fetch action resets the cell to `empty`, and a flush followed by
   * an evaluation and a new subscription re-arms it; either way the next
   * evaluation starts a second fetch.
   */
  lemma SecondFetchWhileRunning<V>(c: Snapshot<V>, shouldRefresh: bool, ownerAlive: bool, run: FetchRun<V>, now: int)
    ensures var running := Step(c, FetchStartEvent).after;
            && running.state.Calculating?
            && ReactionTo(Step(running, ActionEvent(RefetchAction)).after.state, shouldRefresh).StartFetch?
            && var flushed := Step(running, ActionEvent(FlushAction)).after;
               var seen := Step(flushed, AccessEvent(shouldRefresh, ownerAlive, run, now)).after;
               ReactionTo(Step(seen, SubscribeEvent).after.state, shouldRefresh).StartFetch?
  {
  }

  // ---------------------------------------------------------------- the cache

  class CachedValueOld<V> {
    var state: StreamState<V>
    var fetch: W.Option<FetchMethod>
    /** The refresh date handed to the refresh control on each successful fetch. */
    var lastRefresh: W.Option<int>

    function Snap(): Snapshot<V>
      reads this
    {
      Snapshot(state, fetch, lastRefresh)
    }

    ghost predicate Valid()
      reads this
    {
      StoresOnlyPrivate(state)
    }

    /** A fresh cache is empty, with no fetch bound. */
    constructor ()
      ensures Valid()
      ensures state == Empty && fetch == W.None && lastRefresh == W.None
    {
      state := Empty;
      fetch := W.None;
      lastRefresh := W.None;
    }

    /** The value held by a `stream` state, public or private (`legacyValue`). */
    function LegacyValue(): (r: W.Option<V>)
      reads this
      ensures r.Some? <==> state.Stream? && !state.streamType.None?
      ensures r.Some? ==> r.value == state.streamType.payload
    {
      var t := state.AsStream();
      if t.Some? then t.value.Value() else W.None
    }

    /** An action of the refresh control reaches the state cell. */
    method ApplyAction(action: RefreshAction)
      requires Valid()
      modifies this
      ensures Valid()
      ensures Snap() == old(Snap()).(state := ActionState(action))
    {
      state := ActionState(action);
    }

    /** `invalidate`: ask the refresh control to flush. */
    method Invalidate()
      requires Valid()
      modifies this
      ensures Valid()
      ensures state == Flush && fetch == old(fetch) && lastRefresh == old(lastRefresh)
    {
      ApplyAction(FlushAction);
    }

    /** A new subscription to `valueObservable`. */
    method OnSubscribe()
      requires Valid()
      modifies this
      ensures Valid()
      ensures Snap() == old(Snap()).(state := Subscribed(old(state)))
    {
      if state.IsInvalid() && !state.shouldFetch {
        state := Invalid(true);
      }
    }

    /** `setFetch`, in its four overloads: shape and weak ownership of the closure. */
    method SetFetch(kind: FetchKind, weakOwner: bool)
      requires Valid()
      modifies this
      ensures Valid()
      ensures Snap() == old(Snap()).(fetch := W.Some(FetchMethod(kind, weakOwner)))
    {
      fetch := W.Some(FetchMethod(kind, weakOwner));
    }

    /** The fetch's `onSubscribe` hook. */
    method OnFetchSubscribe()
      modifies this
      ensures Valid()
      ensures state == Calculating && fetch == old(fetch) && lastRefresh == old(lastRefresh)
    {
      state := Calculating;
    }

    /** The fetch's `onSuccess`/`onNext` hook. */
    method OnFetchValue(v: V, now: int)
      modifies this
      ensures Valid()
      ensures state == Stream(Private(v)) && lastRefresh == W.Some(now) && fetch == old(fetch)
    {
      lastRefresh := W.Some(now);
      state := Stream(Private(v));
    }

    /** The fetch's `onDispose` hook: back to `empty` only if still calculating. */
    method OnFetchDispose()
      requires Valid()
      modifies this
      ensures Valid()
      ensures old(state).Calculating? ==> state == Empty
      ensures !old(state).Calculating? ==> state == old(state)
      ensures fetch == old(fetch) && lastRefresh == old(lastRefresh)
    {
      if state.IsCalculating() {
        state := Empty;
      }
    }

    /**
     * `fetchAsSingle` (and `fetchValue`): refuses an unset or observable-shaped
     * fetch without touching the state, otherwise runs the single through its
     * lifecycle hooks.
     */
    method FetchAsSingle(ownerAlive: bool, outcome: W.Result<V, FetchError>, now: int) returns (r: W.Result<V, FetchError>)
      requires Valid()
      modifies this
      ensures Valid()
      ensures old(fetch).None? ==> r == W.Failure(UnsetFetchClosure) && Snap() == old(Snap())
      ensures old(fetch).Some? && old(fetch).value.kind.ObservableFetch? ==>
                r == W.Failure(InternalError) && Snap() == old(Snap())
      ensures old(fetch).Some? && old(fetch).value.kind.SingleFetch? ==>
                && r == (if old(fetch).value.weakOwner && !ownerAlive then W.Failure(NullReference) else outcome)
                && Snap() == Lifecycle(old(Snap()), if r.Success? then [r.value] else [], now)
    {
      if fetch.None? {
        return W.Failure(UnsetFetchClosure);
      }
      if !fetch.value.kind.SingleFetch? {
        return W.Failure(InternalError);
      }
      r := if fetch.value.weakOwner && !ownerAlive then W.Failure(NullReference) else outcome;
      OnFetchSubscribe();
      if r.Success? {
        OnFetchValue(r.value, now);
      }
      OnFetchDispose();
    }

    /**
     * `fetchAsObservable` (and `fetchValueObservable`): refuses an unset or
     * single-shaped fetch without touching the state, otherwise runs the
     * observable through its lifecycle hooks, one `onNext` per value.
     */
    method FetchAsObservable(ownerAlive: bool, run: FetchRun<V>, now: int) returns (values: seq<V>, failure: W.Option<FetchError>)
      requires Valid()
      modifies this
      ensures Valid()
      ensures old(fetch).None? ==>
                values == [] && failure == W.Some(UnsetFetchClosure) && Snap() == old(Snap())
      ensures old(fetch).Some? && old(fetch).value.kind.SingleFetch? ==>
                values == [] && failure == W.Some(InternalError) && Snap() == old(Snap())
      ensures old(fetch).Some? && old(fetch).value.kind.ObservableFetch? ==>
                && FetchRun(values, failure) == Invoke(old(fetch).value, ownerAlive, run)
                && Snap() == Lifecycle(old(Snap()), values, now)
    {
      if fetch.None? {
        return [], W.Some(UnsetFetchClosure);
      }
      if !fetch.value.kind.ObservableFetch? {
        return [], W.Some(InternalError);
      }
      var produced := Invoke(fetch.value, ownerAlive, run);
      OnFetchSubscribe();
      ghost var start := Snap();
      var i := 0;
      while i < |produced.values|
        invariant 0 <= i <= |produced.values|
        invariant Valid()
        invariant Snap() == Produce(start, produced.values[..i], now)
      {
        OnFetchValue(produced.values[i], now);
        assert produced.values[..i + 1][..i] == produced.values[..i];
        i := i + 1;
      }
      assert produced.values[..i] == produced.values;
      OnFetchDispose();
      values, failure := produced.values, produced.failure;
    }

    /**
     * One evaluation of `valueObservable` on the current state: the per-state
     * reaction, the fetch it may start, and the normalisation of its errors.
     */
    method React(shouldRefresh: bool, ownerAlive: bool, run: FetchRun<V>, now: int)
      returns (emitted: seq<StreamType<V>>, error: W.Option<FetchError>)
      requires Valid()
      requires fetch.Some? && fetch.value.kind.SingleFetch? ==> SingleShaped(run)
      modifies this
      ensures Valid()
      ensures Snap() == Access(old(Snap()), shouldRefresh, ownerAlive, run, now).after
      ensures emitted == Access(old(Snap()), shouldRefresh, ownerAlive, run, now).emitted
      ensures error == Access(old(Snap()), shouldRefresh, ownerAlive, run, now).error
    {
      var reaction := ReactionTo(state, shouldRefresh);
      if reaction.Emit? {
        if state.Flush? {
          state := Invalid(false);
        }
        return [reaction.element], W.None;
      }
      if fetch.None? {
        return [None], W.None;
      }
      var produced: seq<V>;
      var failure: W.Option<FetchError>;
      if fetch.value.kind.ObservableFetch? {
        produced, failure := FetchAsObservable(ownerAlive, run, now);
      } else {
        var single := if |run.values| == 1 then W.Success(run.values[0]) else W.Failure(run.failure.value);
        var r := FetchAsSingle(ownerAlive, single, now);
        produced := if r.Success? then [r.value] else [];
        failure := if r.Failure? then W.Some(r.error) else W.None;
      }
      emitted, error := Ticks(|produced|), W.None;
      if failure.Some? {
        match RecoveryFor(failure.value)
        case Swallow =>
          emitted := emitted + [None];
        case Rethrow =>
          error := W.Some(FetchFailed);
        case InvalidateAndFail =>
          state := Invalid(false);
          error := W.Some(FetchFailed);
      }
    }
  }
}
