/** The per-sale bid cache of the store (`src/redux/bidData/index.ts`): a
    loading flag, the last fetch error and a map from sale id to the bids
    last fetched for that sale. */
module BidCache {
  import opened Auction

  /** The value a failed fetch throws, recorded as the state's `error`. */
  datatype Error = Error(message: string)

  /** The cached bids of one sale and the UTC timestamp of their fetch. */
  datatype SaleBids = SaleBids(lastUpdated: int, bids: seq<AuctionBid>)

  /** `BidsBySaleId`: sale id to that sale's cached bids. */
  type BidsBySaleId = map<string, SaleBids>

  /** `BidState`; `error == None` is JavaScript's `null`. */
  datatype BidState = BidState(isLoading: bool, error: Option<Error>, bidsBySaleId: BidsBySaleId)

  /** The `type` of an action this reducer does not handle. */
  type OtherActionType = t: string
    | t != "INITIAL_BID_REQUEST" && t != "INITIAL_BID_SUCCESS" && t != "INITIAL_BID_FAILURE"
    witness ""

  /** The actions the reducer handles, built by `initialBidRequest`,
      `initialBidSuccess` and `initialBidFailure`, and any other action the
      store dispatches. A failure carries whatever `catch` bound, which may be
      `null` or `undefined` (None). */
  datatype BidAction =
    | InitialBidRequest(loading: bool)
    | InitialBidSuccess(payload: BidsBySaleId)
    | InitialBidFailure(failure: Option<Error>)
    | Unrecognised(actionType: OtherActionType)

  /** `defaultState`: loading, no error, nothing cached. */
  const DefaultState: BidState := BidState(true, None, map[])

  /** The reducer's default parameter: an undefined state is `defaultState`. */
  function StateOrDefault(state: Option<BidState>): (r: BidState)
    ensures state.None? ==> r.isLoading && r.error == None && r.bidsBySaleId == map[]
    ensures state.Some? ==> r == state.value
  {
    match state
    case None => DefaultState
    case Some(s) => s
  }

  /** `{ ...current, ...payload }`: the payload's entries win, every other
      entry of `current` is kept. */
  function MergeBids(current: BidsBySaleId, payload: BidsBySaleId): (r: BidsBySaleId)
    ensures r.Keys == current.Keys + payload.Keys
    ensures forall k :: k in payload ==> r[k] == payload[k]
    ensures forall k :: k in current && k !in payload ==> r[k] == current[k]
  {
    current + payload
  }

  /** `BidReducer`. */
  function BidReducer(state: BidState, action: BidAction): (r: BidState)
    ensures action.InitialBidRequest? ==>
      r.isLoading == action.loading && r.error == state.error && r.bidsBySaleId == state.bidsBySaleId
    ensures action.InitialBidSuccess? ==>
      !r.isLoading && r.error == state.error && r.bidsBySaleId == MergeBids(state.bidsBySaleId, action.payload)
    ensures action.InitialBidFailure? ==>
      !r.isLoading && r.error == action.failure && r.bidsBySaleId == state.bidsBySaleId
    ensures action.Unrecognised? ==> r == state
  {
    match action
    case InitialBidRequest(loading) => state.(isLoading := loading)
    case InitialBidSuccess(payload) =>
      state.(isLoading := false, bidsBySaleId := MergeBids(state.bidsBySaleId, payload))
    case InitialBidFailure(failure) => state.(isLoading := false, error := failure)
    case Unrecognised(_) => state
  }

  /** What the store does with the reducer: the state after dispatching
      `actions` one after the other, starting from `state`. */
  function Dispatch(state: BidState, actions: seq<BidAction>): BidState
    decreases |actions|
  {
    if actions == [] then state else Dispatch(BidReducer(state, actions[0]), actions[1..])
  }

  /** The store's first call passes an undefined state and an action of its
      own: the state it starts from is loading, error-free and empty. */
  lemma InitialStateIsLoadingAndEmpty(actionType: OtherActionType)
    ensures var s := BidReducer(StateOrDefault(None), Unrecognised(actionType));
      s.isLoading && s.error == None && s.bidsBySaleId == map[]
  {
  }

  /** Dispatching the same success payload again changes nothing. */
  lemma SuccessIsIdempotent(state: BidState, payload: BidsBySaleId)
    ensures var once := BidReducer(state, InitialBidSuccess(payload));
      BidReducer(once, InitialBidSuccess(payload)) == once
  {
  }

  /** No action removes a sale from the cache: once loaded, a sale's bids
      stay available whatever is dispatched afterwards. */
  lemma {:induction false} LoadedSalesAreNeverDropped(state: BidState, actions: seq<BidAction>)
    ensures state.bidsBySaleId.Keys <= Dispatch(state, actions).bidsBySaleId.Keys
    decreases |actions|
  {
    if actions != [] {
      LoadedSalesAreNeverDropped(BidReducer(state, actions[0]), actions[1..]);
    }
  }

  /** Some success action in `actions` carries an entry for `saleId`. */
  ghost predicate Refreshes(actions: seq<BidAction>, saleId: string)
  {
    exists i :: 0 <= i < |actions| && actions[i].InitialBidSuccess? && saleId in actions[i].payload
  }

  /** A sale's entry changes only through a success payload that names it. */
  lemma {:induction false} UnrefreshedSaleKeepsItsBids(state: BidState, actions: seq<BidAction>, saleId: string)
    requires saleId in state.bidsBySaleId
    requires !Refreshes(actions, saleId)
    ensures saleId in Dispatch(state, actions).bidsBySaleId
    ensures Dispatch(state, actions).bidsBySaleId[saleId] == state.bidsBySaleId[saleId]
    decreases |actions|
  {
    if actions != [] {
      assert !Refreshes(actions[1..], saleId) by {
        forall i | 0 <= i < |actions[1..]|
          ensures !(actions[1..][i].InitialBidSuccess? && saleId in actions[1..][i].payload)
        {
          assert actions[1..][i] == actions[i + 1];
        }
      }
      assert !(actions[0].InitialBidSuccess? && saleId in actions[0].payload);
      UnrefreshedSaleKeepsItsBids(BidReducer(state, actions[0]), actions[1..], saleId);
    }
  }

  /** Once `error` is set, only a failure whose thrown value is `null` or
      `undefined` clears it; in particular a success after a failure leaves
      the old error in place. */
  lemma {:induction false} ErrorIsClearedOnlyByNullFailure(state: BidState, actions: seq<BidAction>)
    requires state.error.Some?
    requires forall i :: 0 <= i < |actions| && actions[i].InitialBidFailure? ==> actions[i].failure.Some?
    ensures Dispatch(state, actions).error.Some?
    decreases |actions|
  {
    if actions != [] {
      assert actions[0].InitialBidFailure? ==> actions[0].failure.Some?;
      forall i | 0 <= i < |actions[1..]| && actions[1..][i].InitialBidFailure?
        ensures actions[1..][i].failure.Some?
      {
        assert actions[1..][i] == actions[i + 1];
      }
      ErrorIsClearedOnlyByNullFailure(BidReducer(state, actions[0]), actions[1..]);
    }
  }

  /** How awaiting the bid data, and dispatching its success, went. The
      success dispatch sits inside the `try`, so when it throws (after the
      reducer has run) the `catch` dispatches a failure as well. */
  datatype FetchOutcome =
    | Fetched(data: BidsBySaleId)
    | FetchFailed(thrown: Option<Error>)
    | SuccessDispatchFailed(data: BidsBySaleId, thrown: Option<Error>)

  /** The actions `fetchAuctionBids` dispatches: the request with `true`,
      then the success with the data if the await resolved, then the failure
      with the thrown value if the await or the success dispatch threw. */
  function FetchAuctionBidsActions(outcome: FetchOutcome): (actions: seq<BidAction>)
    ensures |actions| == (if outcome.SuccessDispatchFailed? then 3 else 2)
    ensures actions[0] == InitialBidRequest(true)
    ensures actions[1].InitialBidSuccess? <==> !outcome.FetchFailed?
    ensures actions[|actions| - 1].InitialBidFailure? <==> !outcome.Fetched?
  {
    match outcome
    case Fetched(data) => [InitialBidRequest(true), InitialBidSuccess(data)]
    case FetchFailed(e) => [InitialBidRequest(true), InitialBidFailure(e)]
    case SuccessDispatchFailed(data, e) =>
      [InitialBidRequest(true), InitialBidSuccess(data), InitialBidFailure(e)]
  }

  /** One fetch with nothing else dispatched between its actions: after its
      request the state is loading; after its last action it is not. Fetched
      data is merged in (error untouched); a thrown value is recorded as the
      error; bids are only merged, never dropped. */
  lemma FetchAuctionBidsSettles(state: BidState, outcome: FetchOutcome)
    ensures Dispatch(state, FetchAuctionBidsActions(outcome)[..1]).isLoading
    ensures var r := Dispatch(state, FetchAuctionBidsActions(outcome));
      && !r.isLoading
      && (outcome.Fetched? ==>
            r.error == state.error && r.bidsBySaleId == MergeBids(state.bidsBySaleId, outcome.data))
      && (outcome.FetchFailed? ==>
            r.error == outcome.thrown && r.bidsBySaleId == state.bidsBySaleId)
      && (outcome.SuccessDispatchFailed? ==>
            r.error == outcome.thrown && r.bidsBySaleId == MergeBids(state.bidsBySaleId, outcome.data))
  {
    var actions := FetchAuctionBidsActions(outcome);
    var requested := BidReducer(state, actions[0]);
    assert Dispatch(state, actions[..1]) == Dispatch(requested, []) by {
      assert actions[..1][1..] == [];
    }
    var answered := BidReducer(requested, actions[1]);
    assert Dispatch(state, actions) == Dispatch(answered, actions[2..]) by {
      assert actions[1..][1..] == actions[2..];
    }
    if outcome.SuccessDispatchFailed? {
      assert Dispatch(answered, actions[2..]) == Dispatch(BidReducer(answered, actions[2]), []) by {
        assert actions[2..][1..] == [];
      }
    } else {
      assert actions[2..] == [];
    }
  }

  /** Any action sequence that ends with a success or a failure leaves the
      state not loading, whatever requests came before it. */
  lemma {:induction false} SettlingClearsLoading(state: BidState, actions: seq<BidAction>)
    requires actions != []
    requires actions[|actions| - 1].InitialBidSuccess? || actions[|actions| - 1].InitialBidFailure?
    ensures !Dispatch(state, actions).isLoading
    decreases |actions|
  {
    if |actions| == 1 {
      assert actions[1..] == [];
    } else {
      assert actions[1..][|actions[1..]| - 1] == actions[|actions| - 1];
      SettlingClearsLoading(BidReducer(state, actions[0]), actions[1..]);
    }
  }

  /** `isLoading` is one flag for all sales: when a second fetch dispatches
      its request while a first one is pending, the first one settling
      clears the flag although the second is still pending. */
  lemma OverlappingFetchesShareOneFlag(state: BidState, first: FetchOutcome)
    ensures !Dispatch(state, [InitialBidRequest(true)] + FetchAuctionBidsActions(first)).isLoading
  {
    var actions := [InitialBidRequest(true)] + FetchAuctionBidsActions(first);
    assert actions[|actions| - 1] == FetchAuctionBidsActions(first)[|FetchAuctionBidsActions(first)| - 1];
    SettlingClearsLoading(state, actions);
  }
}
