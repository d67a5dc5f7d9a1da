# Bid state and bid query of the aqua auction interface

This project models, in Dafny, the bid-handling core of the aqua auction web
interface:

- the store's **per-sale bid cache** (`src/redux/bidData/index.ts`): a state of
  `isLoading`, `error` and `bidsBySaleId` (sale id to `{lastUpdated, bids}`),
  changed by three actions (INITIAL_BID_REQUEST, INITIAL_BID_SUCCESS,
  INITIAL_BID_FAILURE), and the order in which `fetchAuctionBids` dispatches
  them;
- the store's **flat bid list** (`src/redux/BidData.ts`), changed by
  GENERATE_BID, REMOVE_BID and INITIAL_BID_SEED;
- the **subgraph query builder** `auctionBidsQuery`
  (`src/subgraph/AuctionBids/index.ts`), which picks the fixed-price or the
  fair-sale template and embeds the auction id with `JSON.stringify`.

All three are pure in the source (reducers that build fresh objects, a
template function), so the model is datatypes, functions and lemmas:

- `auction.dfy` (module `Auction`): `Option` and the `AuctionBid`
  record (address, sellAmount, buyAmount).
- `bid_cache.dfy` (module `BidCache`): the cache state, its reducer, the
  store's dispatch of a sequence of actions (`Dispatch`), and the actions of
  `fetchAuctionBids` as a function of the fetch outcome.
- `bid_list.dfy` (module `BidList`): the bid list reducer. A list element is
  `One(bid)` or `Group(entries)`, because the reducer really does put arrays
  into the list: REMOVE_BID stores the filtered list as the single element of
  a new list, and the `InitialBid` action creator takes an array of bids
  (`AuctionBid[]`, line 42) which the reducer appends as one element (line
  73), although the action type declares a single bid. Reading `address`,
  `sellAmount` or `buyAmount` of an array gives `undefined`, modelled as
  `None`, so an array element always passes the REMOVE_BID filter.
- `json_string.dfy` (module `JsonString`): `JSON.stringify` on a string, that
  is the QuoteJSONString operation of ECMA-262 (escapes `\b \t \n \f \r \" \\`,
  other characters below U+0020 as lower-case `\u00xx`, everything else
  copied), and a decoder for string literals as section 7 of RFC 8259 defines
  them, used to prove that the quoting can be read back and is injective.
- `subgraph.dfy` (module `Subgraph`): the two query templates, character for
  character, and `AuctionBidsQuery`.

Behaviour kept as the code has it, where a reader might expect otherwise:

- REMOVE_BID keeps a bid only when it differs from the payload in **all
  three** fields, so a bid sharing any one field with the payload is dropped.
- After REMOVE_BID the list has exactly one element, the filtered list; a
  later REMOVE_BID cannot match that element and only nests the list deeper.
- `isLoading` is one flag for every sale: whichever pending fetch settles
  first clears it, even while another fetch is still pending.
- INITIAL_BID_SUCCESS does not reset `error`: an error recorded by an earlier
  failed fetch stays after a later successful one. Only a failure whose
  thrown value is `null` or `undefined` sets it back to nothing.
- The success dispatch of `fetchAuctionBids` is inside its `try`: if that
  dispatch throws after the reducer ran, a failure is dispatched after the
  success, three actions in all.

## Model

| member | source | states |
|---|---|---|
| `BidCache.MergeBids` | src/redux/bidData/index.ts:108 | the merged map's keys are the union of old and payload keys; every payload key maps to the payload's entry; every old key absent from the payload keeps its old entry |
| `BidCache.BidReducer` | src/redux/bidData/index.ts:97-120 | REQUEST sets `isLoading` to its payload and keeps `error` and the map; SUCCESS clears `isLoading`, keeps `error` and merges the payload over the map; FAILURE clears `isLoading`, sets `error` to the thrown value (possibly null) and keeps the map; any other action returns the state unchanged |
| `BidCache.StateOrDefault` | src/redux/bidData/index.ts:97 | the reducer's default parameter: an undefined state is taken as loading, with no error and no cached sale; a given state is used as it is |
| `BidCache.InitialStateIsLoadingAndEmpty` | src/redux/bidData/index.ts:68-72 | the state the store starts from (undefined state, unrecognised action) is loading, with no error and no cached sale |
| `BidCache.SuccessIsIdempotent` | src/redux/bidData/index.ts:104-109 | dispatching the same SUCCESS payload a second time leaves the state as after the first |
| `BidCache.LoadedSalesAreNeverDropped` | src/redux/bidData/index.ts:97-120 | after any sequence of actions, every sale id cached before is still cached |
| `BidCache.UnrefreshedSaleKeepsItsBids` | src/redux/bidData/index.ts:104-115 | a cached sale's entry is unchanged by any sequence of actions in which no SUCCESS payload names that sale (failures keep previously loaded bids) |
| `BidCache.ErrorIsClearedOnlyByNullFailure` | src/redux/bidData/index.ts:99-115 | once `error` is set, no sequence of actions without a failure carrying a null thrown value makes it `null` again (a success does not clear it) |
| `BidCache.FetchAuctionBidsActions` | src/redux/bidData/index.ts:76-86 | `fetchAuctionBids` dispatches REQUEST(true) first; SUCCESS second exactly when the await resolved; it ends with FAILURE exactly when the await or the success dispatch threw; three actions exactly when the success dispatch threw, two otherwise |
| `BidCache.FetchAuctionBidsSettles` | src/redux/bidData/index.ts:76-86 | for one fetch with nothing dispatched between its actions: the state is loading after the first dispatch and not loading after the last; on success the data is merged in and `error` is untouched; when the await threw the thrown value is recorded and the cached bids are untouched; when the success dispatch threw the data is merged in and the thrown value recorded |
| `BidCache.SettlingClearsLoading` | src/redux/bidData/index.ts:104-115 | any action sequence ending in SUCCESS or FAILURE leaves `isLoading` false, whatever requests came before |
| `BidCache.OverlappingFetchesShareOneFlag` | src/redux/bidData/index.ts:63 | `isLoading` is one flag for all sales: a fetch that settles while another fetch's request is still pending clears it |
| `BidList.StateOrDefault` | src/redux/BidData.ts:54 | the reducer's default parameter: an undefined state is taken as the empty bid list; a given state is used as it is |
| `BidList.InitialStateIsEmpty` | src/redux/BidData.ts:47-49 | the store starts from an empty bid list |
| `BidList.BidReducer` | src/redux/BidData.ts:54-78 | GENERATE_BID and INITIAL_BID_SEED append their payload at the end (length one more, old list a prefix, payload last); REMOVE_BID leaves exactly one element, a nested list that is an order-preserving subsequence of the old list holding every copy of each element that passes the filter and nothing else; any other action returns the state unchanged |
| `BidList.KeptBy` | src/redux/BidData.ts:64-67 | the REMOVE_BID filter keeps a bid iff its address, sellAmount and buyAmount all differ from the payload's, and always keeps an element that is an array |
| `BidList.Filter` | src/redux/BidData.ts:63-68 | the filtered list is never longer than the old one, contains an element iff the old list contains it and the filter keeps it, and holds as many copies of a kept element as the old list and none of a dropped one |
| `BidList.FilterIsSubsequence` | src/redux/BidData.ts:63-68 | the filtered list keeps the surviving elements in their original order |
| `BidList.SharingOneFieldRemoves` | src/redux/BidData.ts:63-68 | a bid sharing any one of the three fields with the payload is not in the list after REMOVE_BID |
| `BidList.SecondRemoveOnlyNests` | src/redux/BidData.ts:61-69 | a REMOVE_BID after a REMOVE_BID removes nothing and wraps the single nested list in one more list |
| `BidList.SeedIsGenerate` | src/redux/BidData.ts:71-74 | INITIAL_BID_SEED with a bid gives exactly the state GENERATE_BID with that bid gives |
| `BidList.InitialBid` | src/redux/BidData.ts:42-45 | the creator wraps its array of bids into one INITIAL_BID_SEED payload: a nested list with exactly those bids in order |
| `BidList.SeedAppendsOneElement` | src/redux/BidData.ts:42-45 | seeding through the `InitialBid` creator appends the whole array of bids as one element, so the list grows by exactly one whatever the array's length |
| `BidList.GenerateKeepsDuplicates` | src/redux/BidData.ts:56-59 | GENERATE_BID does not deduplicate: generating the same bid twice adds two copies |
| `JsonString.EscapeChar` | src/subgraph/AuctionBids/index.ts:5 | a character that is `"`, `\` or a control character is written as an escape starting with `\`; any other character is copied; the output contains no control character |
| `JsonString.EscapeAll` | src/subgraph/AuctionBids/index.ts:5 | the escaped text is at least as long as the string and contains no control character, so the id cannot break the query's lines |
| `JsonString.Quote` | src/subgraph/AuctionBids/index.ts:5 | `JSON.stringify` on the id gives a literal that starts and ends with a double quote |
| `JsonString.UnquoteQuote` | src/subgraph/AuctionBids/index.ts:5 | the quoted id is a well-formed RFC 8259 string literal that decodes back to the id |
| `JsonString.QuoteIsInjective` | src/subgraph/AuctionBids/index.ts:18 | two different strings never quote to the same literal |
| `Subgraph.AuctionBidsQuery` | src/subgraph/AuctionBids/index.ts:1-27 | the query is the type's fixed prefix, then a JSON string literal that decodes to the auction id, then the type's fixed suffix |
| `Subgraph.FixedPriceSaleQuerySelectsPurchases` | src/subgraph/AuctionBids/index.ts:2-13 | for `fixedPriceSale` the query selects `fixedPriceSale (id: <quoted id>)` and its `purchases { id buyer amount }` |
| `Subgraph.FairSaleQuerySelectsBids` | src/subgraph/AuctionBids/index.ts:16-26 | for any other type the query selects `fairSale (id: <quoted id>)` and its `bids { id tokenInAmount tokenOutAmount }` |
| `Subgraph.OtherTypesQueryFairSale` | src/subgraph/AuctionBids/index.ts:2-16 | every type other than `fixedPriceSale` yields the same query as `fairSale` |
| `Subgraph.QueryIsInjective` | src/subgraph/AuctionBids/index.ts:5-18 | for one type, different auction ids give different queries |

## Left out

- The asynchronous side of `fetchAuctionBids`: the request promise and
  `generateInitialAuctionData` (src/subgraph, not part of this model) are
  replaced by their outcome, a `FetchOutcome` parameter; `console.log` is
  left out.
- BidCache.FetchAuctionBidsSettles: covers one fetch with nothing dispatched
  between its request and its outcome; fetches for different sales overlap
  in the source and share the one `isLoading` flag, which is stated
  separately by `BidCache.OverlappingFetchesShareOneFlag`.
- BidCache.FetchAuctionBidsActions: assumes the first dispatch, REQUEST(true), which
  sits outside the `try`, does not throw; if it did, the thunk would stop
  after it with `isLoading` left true.
  The Redux store itself is not part of this model; `BidCache.Dispatch` stands
  for it, applying the reducer to each dispatched action in order.
- The action creators are the constructors of the action datatypes, except
  `InitialBid`, which wraps its array (`BidList.InitialBid`).
- `AuctionBid` (src/interfaces/Auction is not part of this model) is reduced
  to the three fields the reducers read. Its amounts are modelled as integers
  compared by value; if the real fields are objects, `!==` compares object
  identity, which the model does not capture.
- `lastUpdated` and a sale's bids are carried as data only; nothing in the
  core reads them.
- Strings are sequences of Unicode scalar values. JavaScript strings are
  UTF-16 code units, and QuoteJSONString escapes a lone surrogate as `\uXXXX`;
  lone surrogates cannot be represented here, and a surrogate pair is one
  character, copied unchanged as QuoteJSONString copies it.
- `JsonString.Unescape` refuses a `\u` escape of a surrogate, which RFC 8259
  admits syntactically; QuoteJSONString never produces one for the strings
  modelled here.
- The wallet hooks, contract bindings, views, geolocation check and the
  clearing-price and auction-state functions used by the views are outside
  this core; the latter two live in files that are not part of this model.
