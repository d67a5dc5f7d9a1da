/** Value types shared by the two bid reducers and the query builder. */
module Auction {

  /** A value that may be absent: JavaScript's `null` / `undefined`. */
  datatype Option<T> = None | Some(value: T)

  /** One bid of a sale, as the `AuctionBid` interface carries it. Only the
      three fields the reducers read are modelled; they are compared by value. */
  datatype AuctionBid = AuctionBid(address: string, sellAmount: int, buyAmount: int)
}
