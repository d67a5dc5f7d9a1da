/** The flat bid list of the store (`src/redux/BidData.ts`). Its reducer
    appends on GENERATE_BID and INITIAL_BID_SEED and filters on REMOVE_BID.
    Two behaviours of the JavaScript are kept as they are: REMOVE_BID stores
    the filtered list as the single element of a new list, and the
    INITIAL_BID_SEED action creator passes an array, which the reducer
    appends as one element. An element of the list is therefore either a bid
    or a nested list. */
module BidList {
  import opened Auction

  /** An element of `bids`: a bid, or an array that ended up in the list. */
  datatype Entry = One(bid: AuctionBid) | Group(entries: seq<Entry>)

  /** `State`. */
  datatype State = State(bids: seq<Entry>)

  /** The `type` of an action this reducer does not handle. */
  type OtherActionType = t: string
    | t != "GENERATE_BID" && t != "REMOVE_BID" && t != "INITIAL_BID_SEED"
    witness ""

  /** The actions the reducer handles, and any other action the store
      dispatches. The seed's payload is whatever the creator was given,
      appended as one element. */
  datatype BidAction =
    | GenerateBid(payload: AuctionBid)
    | RemoveBid(payload: AuctionBid)
    | InitialBidSeed(seed: Entry)
    | Unrecognised(actionType: OtherActionType)

  /** `defaultState`: no bids. */
  const DefaultState: State := State([])

  /** The reducer's default parameter: an undefined state is `defaultState`. */
  function StateOrDefault(state: Option<State>): (r: State)
    ensures state.None? ==> r.bids == []
    ensures state.Some? ==> r == state.value
  {
    match state
    case None => DefaultState
    case Some(s) => s
  }

  /** The bids of an array as the elements of a nested list. */
  function Ones(bids: seq<AuctionBid>): (r: seq<Entry>)
    ensures |r| == |bids|
    ensures forall i :: 0 <= i < |bids| ==> r[i] == One(bids[i])
  {
    seq(|bids|, i requires 0 <= i < |bids| => One(bids[i]))
  }

  /** The `InitialBid` action creator: its argument is an array of bids. */
  function InitialBid(payload: seq<AuctionBid>): (a: BidAction)
    ensures a.InitialBidSeed? && a.seed.Group? && |a.seed.entries| == |payload|
    ensures forall i :: 0 <= i < |payload| ==> a.seed.entries[i] == One(payload[i])
  {
    InitialBidSeed(Group(Ones(payload)))
  }

  /** `entry.address`: `undefined` (None) when the element is an array. */
  function Address(e: Entry): Option<string>
  {
    match e
    case One(b) => Some(b.address)
    case Group(_) => None
  }

  /** `entry.sellAmount`: `undefined` (None) when the element is an array. */
  function SellAmount(e: Entry): Option<int>
  {
    match e
    case One(b) => Some(b.sellAmount)
    case Group(_) => None
  }

  /** `entry.buyAmount`: `undefined` (None) when the element is an array. */
  function BuyAmount(e: Entry): Option<int>
  {
    match e
    case One(b) => Some(b.buyAmount)
    case Group(_) => None
  }

  /** The REMOVE_BID filter predicate: three `!==` tests joined by `&&`.
      A bid is kept exactly when it differs from the payload in all three
      fields; a nested list has none of the fields and is always kept. */
  predicate KeptBy(e: Entry, payload: AuctionBid): (keep: bool)
    ensures e.One? ==>
      (keep <==>
         && e.bid.address != payload.address
         && e.bid.sellAmount != payload.sellAmount
         && e.bid.buyAmount != payload.buyAmount)
    ensures e.Group? ==> keep
  {
    && Address(e) != Some(payload.address)
    && SellAmount(e) != Some(payload.sellAmount)
    && BuyAmount(e) != Some(payload.buyAmount)
  }

  /** `a` is `b` with some elements left out, the rest in the same order. */
  predicate IsSubsequence<T(==)>(a: seq<T>, b: seq<T>)
    decreases |b|
  {
    if a == [] then true
    else if b == [] then false
    else if a[0] == b[0] then IsSubsequence(a[1..], b[1..])
    else IsSubsequence(a, b[1..])
  }

  /** `Array.filter` with the REMOVE_BID predicate. */
  function Filter(xs: seq<Entry>, payload: AuctionBid): (r: seq<Entry>)
    ensures |r| <= |xs|
    ensures forall e :: e in r <==> e in xs && KeptBy(e, payload)
    ensures forall e :: multiset(r)[e] == if KeptBy(e, payload) then multiset(xs)[e] else 0
    decreases |xs|
  {
    if xs == [] then []
    else
      assert xs == [xs[0]] + xs[1..];
      if KeptBy(xs[0], payload) then [xs[0]] + Filter(xs[1..], payload)
      else Filter(xs[1..], payload)
  }

  /** The filter keeps the surviving elements in their original order. */
  lemma {:induction false} FilterIsSubsequence(xs: seq<Entry>, payload: AuctionBid)
    ensures IsSubsequence(Filter(xs, payload), xs)
    decreases |xs|
  {
    if xs != [] {
      FilterIsSubsequence(xs[1..], payload);
      if !KeptBy(xs[0], payload) {
        SubsequenceOfTail(Filter(xs, payload), xs);
      }
    }
  }

  /** A subsequence of the tail is a subsequence of the whole. */
  lemma {:induction false} SubsequenceOfTail<T>(a: seq<T>, b: seq<T>)
    requires b != [] && IsSubsequence(a, b[1..])
    ensures IsSubsequence(a, b)
    decreases |b|, 0
  {
    if a != [] && a[0] == b[0] {
      SubsequenceDropHead(a, b[1..]);
    }
  }

  /** Dropping the head of a subsequence keeps it a subsequence. */
  lemma {:induction false} SubsequenceDropHead<T>(a: seq<T>, b: seq<T>)
    requires a != [] && IsSubsequence(a, b)
    ensures IsSubsequence(a[1..], b)
    decreases |b|, 1
  {
    if a[0] == b[0] {
      if a[1..] != [] {
        SubsequenceOfTail(a[1..], b);
      }
    } else {
      SubsequenceDropHead(a, b[1..]);
      if a[1..] != [] {
        SubsequenceOfTail(a[1..], b);
      }
    }
  }

  /** A list whose elements all pass the filter comes through unchanged. */
  lemma {:induction false} FilterKeepsAllKept(xs: seq<Entry>, payload: AuctionBid)
    requires forall e :: e in xs ==> KeptBy(e, payload)
    ensures Filter(xs, payload) == xs
    decreases |xs|
  {
    if xs != [] {
      assert xs[0] in xs;
      FilterKeepsAllKept(xs[1..], payload);
      assert [xs[0]] + xs[1..] == xs;
    }
  }

  /** `BidReducer`. */
  function BidReducer(state: State, action: BidAction): (r: State)
    ensures action.GenerateBid? ==>
      && |r.bids| == |state.bids| + 1
      && r.bids[..|state.bids|] == state.bids
      && r.bids[|state.bids|] == One(action.payload)
    ensures action.InitialBidSeed? ==>
      && |r.bids| == |state.bids| + 1
      && r.bids[..|state.bids|] == state.bids
      && r.bids[|state.bids|] == action.seed
    ensures action.RemoveBid? ==>
      && |r.bids| == 1
      && r.bids[0].Group?
      && IsSubsequence(r.bids[0].entries, state.bids)
      && (forall e :: e in r.bids[0].entries <==> e in state.bids && KeptBy(e, action.payload))
      && (forall e :: multiset(r.bids[0].entries)[e] ==
            if KeptBy(e, action.payload) then multiset(state.bids)[e] else 0)
    ensures action.Unrecognised? ==> r == state
  {
    match action
    case GenerateBid(payload) => State(state.bids + [One(payload)])
    case RemoveBid(payload) =>
      FilterIsSubsequence(state.bids, payload);
      State([Group(Filter(state.bids, payload))])
    case InitialBidSeed(seed) => State(state.bids + [seed])
    case Unrecognised(_) => state
  }

  /** The store starts from an empty bid list. */
  lemma InitialStateIsEmpty(actionType: OtherActionType)
    ensures BidReducer(StateOrDefault(None), Unrecognised(actionType)).bids == []
  {
  }

  /** Seeding with one bid has exactly the effect of generating that bid. */
  lemma SeedIsGenerate(state: State, bid: AuctionBid)
    ensures BidReducer(state, InitialBidSeed(One(bid))) == BidReducer(state, GenerateBid(bid))
  {
  }

  /** Seeding through the action creator appends the whole array as ONE
      element, however many bids it holds. */
  lemma SeedAppendsOneElement(state: State, bids: seq<AuctionBid>)
    ensures var r := BidReducer(state, InitialBid(bids));
      && |r.bids| == |state.bids| + 1
      && r.bids[..|state.bids|] == state.bids
      && r.bids[|state.bids|].Group?
      && r.bids[|state.bids|].entries == Ones(bids)
  {
  }

  /** Generating does not deduplicate: the same bid twice gives two more copies. */
  lemma GenerateKeepsDuplicates(state: State, bid: AuctionBid)
    ensures var r := BidReducer(BidReducer(state, GenerateBid(bid)), GenerateBid(bid));
      multiset(r.bids)[One(bid)] == multiset(state.bids)[One(bid)] + 2
  {
    var r := BidReducer(BidReducer(state, GenerateBid(bid)), GenerateBid(bid));
    assert r.bids == state.bids + [One(bid)] + [One(bid)];
  }

  /** A bid that shares any one field with the payload is removed. */
  lemma SharingOneFieldRemoves(state: State, payload: AuctionBid, bid: AuctionBid)
    requires bid.address == payload.address || bid.sellAmount == payload.sellAmount
          || bid.buyAmount == payload.buyAmount
    ensures One(bid) !in BidReducer(state, RemoveBid(payload)).bids[0].entries
  {
  }

  /** After one REMOVE_BID the list is a single nested list, which no later
      REMOVE_BID can match: a second removal drops nothing and only nests
      the list one level deeper. */
  lemma SecondRemoveOnlyNests(state: State, first: AuctionBid, second: AuctionBid)
    ensures var once := BidReducer(state, RemoveBid(first));
      BidReducer(once, RemoveBid(second)).bids == [Group(once.bids)]
  {
    var once := BidReducer(state, RemoveBid(first));
    FilterKeepsAllKept(once.bids, second);
  }
}
