/** The subgraph query for a sale's bids (`src/subgraph/AuctionBids/index.ts`):
    one of two fixed templates, chosen by the auction type, with the auction
    id embedded as a JSON string literal. */
module Subgraph {
  import opened Auction
  import JsonString

  /** The selection set of a fixed-price sale's purchases. */
  const PurchaseFields: string := "purchases {\n      id\n      buyer\n      amount\n    }"

  /** The selection set of a fair sale's bids. */
  const BidFields: string := "bids {\n      id\n      tokenInAmount\n      tokenOutAmount\n    }"

  /** The template text before and after the id, for a fixed-price sale. */
  const FixedPriceSalePrefix: string := "\n      {\n        " + "fixedPriceSale (id: "
  const FixedPriceSaleSuffix: string := ") {" + "\n    " + PurchaseFields + "\n   }\n }\n      "

  /** The template text before and after the id, for any other type. */
  const FairSalePrefix: string := "\n{\n  " + "fairSale (id: "
  const FairSaleSuffix: string := ") {" + "\n    " + BidFields + "\n   }\n }\n"

  function Prefix(auctionType: string): string
  {
    if auctionType == "fixedPriceSale" then FixedPriceSalePrefix else FairSalePrefix
  }

  function Suffix(auctionType: string): string
  {
    if auctionType == "fixedPriceSale" then FixedPriceSaleSuffix else FairSaleSuffix
  }

  /** `auctionBidsQuery`. The text between the type's fixed prefix and suffix
      is a JSON string literal that reads back as the auction id. */
  function AuctionBidsQuery(auctionId: string, auctionType: string): (q: string)
    ensures |Prefix(auctionType)| + |Suffix(auctionType)| + 2 <= |q|
    ensures q[..|Prefix(auctionType)|] == Prefix(auctionType)
    ensures q[|q| - |Suffix(auctionType)|..] == Suffix(auctionType)
    ensures JsonString.Unquote(q[|Prefix(auctionType)|..|q| - |Suffix(auctionType)|]) == Some(auctionId)
  {
    var quoted := JsonString.Quote(auctionId);
    JsonString.UnquoteQuote(auctionId);
    var q := Prefix(auctionType) + quoted + Suffix(auctionType);
    assert q[|Prefix(auctionType)|..|q| - |Suffix(auctionType)|] == quoted;
    q
  }

  /** `needle` occurs in `text` starting at index `i`. */
  ghost predicate OccursAt(needle: string, text: string, i: nat)
  {
    i + |needle| <= |text| && text[i..i + |needle|] == needle
  }

  /** `needle` occurs somewhere in `text`. */
  ghost predicate Occurs(needle: string, text: string)
  {
    exists i: nat :: OccursAt(needle, text, i)
  }

  /** The middle part of a concatenation occurs right after the first part. */
  lemma OccursInMiddle(before: string, needle: string, after: string)
    ensures OccursAt(needle, before + needle + after, |before|)
  {
    assert (before + needle + after)[|before|..|before| + |needle|] == needle;
  }

  /** An occurrence in `text` is an occurrence in `front + text`, shifted. */
  lemma OccursAfterFront(needle: string, text: string, i: nat, front: string)
    requires OccursAt(needle, text, i)
    ensures OccursAt(needle, front + text, |front| + i)
  {
    assert (front + text)[|front| + i..|front| + i + |needle|] == text[i..i + |needle|];
  }

  /** `opening + middle + closing` occurs in a text that has `opening` at the
      end of its first part and `closing` at the start of its last. */
  lemma OccursAcrossJoin(lead: string, opening: string, middle: string, closing: string,
                         rest: string)
    ensures OccursAt(opening + middle + closing, (lead + opening) + middle + (closing + rest), |lead|)
  {
    assert (lead + opening) + middle + (closing + rest) == lead + (opening + middle + closing) + rest;
    OccursInMiddle(lead, opening + middle + closing, rest);
  }

  /** A fixed-price sale query selects the `fixedPriceSale` entity by the id
      and asks for its purchases' id, buyer and amount. */
  lemma FixedPriceSaleQuerySelectsPurchases(auctionId: string)
    ensures var q := AuctionBidsQuery(auctionId, "fixedPriceSale");
      && Occurs("fixedPriceSale (id: " + JsonString.Quote(auctionId) + ") {", q)
      && Occurs(PurchaseFields, q)
  {
    var quoted := JsonString.Quote(auctionId);
    var q := FixedPriceSalePrefix + quoted + FixedPriceSaleSuffix;
    var rest := "\n    " + PurchaseFields + "\n   }\n }\n      ";
    assert FixedPriceSaleSuffix == ") {" + rest;
    OccursAcrossJoin("\n      {\n        ", "fixedPriceSale (id: ", quoted, ") {", rest);
    OccursInMiddle(") {\n    ", PurchaseFields, "\n   }\n }\n      ");
    OccursAfterFront(PurchaseFields, FixedPriceSaleSuffix, |") {\n    "|, FixedPriceSalePrefix + quoted);
  }

  /** A query for any other type selects the `fairSale` entity by the id and
      asks for its bids' id, tokenInAmount and tokenOutAmount. */
  lemma FairSaleQuerySelectsBids(auctionId: string, auctionType: string)
    requires auctionType != "fixedPriceSale"
    ensures var q := AuctionBidsQuery(auctionId, auctionType);
      && Occurs("fairSale (id: " + JsonString.Quote(auctionId) + ") {", q)
      && Occurs(BidFields, q)
  {
    var quoted := JsonString.Quote(auctionId);
    var q := FairSalePrefix + quoted + FairSaleSuffix;
    var rest := "\n    " + BidFields + "\n   }\n }\n";
    assert FairSaleSuffix == ") {" + rest;
    OccursAcrossJoin("\n{\n  ", "fairSale (id: ", quoted, ") {", rest);
    OccursInMiddle(") {\n    ", BidFields, "\n   }\n }\n");
    OccursAfterFront(BidFields, FairSaleSuffix, |") {\n    "|, FairSalePrefix + quoted);
  }

  /** Every type other than `fixedPriceSale` gets the `fairSale` query. */
  lemma OtherTypesQueryFairSale(auctionId: string, auctionType: string)
    requires auctionType != "fixedPriceSale"
    ensures AuctionBidsQuery(auctionId, auctionType) == AuctionBidsQuery(auctionId, "fairSale")
  {
  }

  /** Two different ids never give the same query for the same type. */
  lemma QueryIsInjective(id1: string, id2: string, auctionType: string)
    requires AuctionBidsQuery(id1, auctionType) == AuctionBidsQuery(id2, auctionType)
    ensures id1 == id2
  {
  }
}
