/**
 NFT listings, bids and sales. acceptBid does not look at the status of the listing; that no listing is sold
 twice or after it was cancelled rests on what placeBid, acceptBid and cancelListing keep together.
 */
module Marketplace {
  import opened Options

  datatype ListingType = FixedPrice | Auction

  /** Nothing in the service ever sets Expired. */
  datatype ListingStatus = Active | Sold | Cancelled | Expired

  datatype BidStatus = Active | Accepted | Rejected | Cancelled | Outbid

  datatype Listing = Listing(
    seller: string,
    kind: ListingType,
    price: real,
    royaltyPercentage: real,
    marketplaceFee: real,
    auctionEndTime: Option<int>,
    status: ListingStatus
  )

  datatype Bid = Bid(listing: string, bidder: string, amount: real, status: BidStatus)

  /** `listing` and `bid` say where the sale came from; the table does not store them. */
  datatype Sale = Sale(listing: string, bid: nat, seller: string, buyer: string, price: real, royalty: real, fee: real)

  /** Bids are in the order of placement. */
  datatype State = State(now: int, listings: map<string, Listing>, bids: seq<Bid>, sales: seq<Sale>)

  datatype Step =
    | Wait(duration: nat)
    | CreateListing(id: string, listing: Listing)
    | PlaceBid(id: string, bidder: string, amount: real)
    | AcceptBid(id: string, bid: nat)
    | CancelListing(id: string, seller: string)

  const INITIAL: State := State(0, map[], [], [])

  predicate StandsOn(b: Bid, id: string) {
    b.listing == id && b.status == BidStatus.Active
  }

  /** UPDATE of every standing bid on a listing: nothing but their status changes, and none is left standing. */
  function Retire(bids: seq<Bid>, id: string, status: BidStatus): (r: seq<Bid>)
    ensures |r| == |bids|
    ensures forall i :: 0 <= i < |bids| && StandsOn(bids[i], id) ==> r[i] == bids[i].(status := status)
    ensures forall i :: 0 <= i < |bids| && !StandsOn(bids[i], id) ==> r[i] == bids[i]
  {
    seq(|bids|, i requires 0 <= i < |bids| =>
      if StandsOn(bids[i], id) then bids[i].(status := status) else bids[i])
  }

  predicate BidAllowed(s: State, id: string, amount: real) {
    && id in s.listings && s.listings[id].status == ListingStatus.Active
    && match s.listings[id].kind
       case FixedPrice => amount >= s.listings[id].price
       case Auction =>
         && (s.listings[id].auctionEndTime.Some? ==> s.now <= s.listings[id].auctionEndTime.value)
         && (forall i :: 0 <= i < |s.bids| && StandsOn(s.bids[i], id) ==> s.bids[i].amount < amount)
  }

  function AfterBid(s: State, id: string, bidder: string, amount: real): State
    requires id in s.listings
  {
    var earlier := if s.listings[id].kind == Auction then Retire(s.bids, id, Outbid) else s.bids;
    s.(bids := earlier + [Bid(id, bidder, amount, BidStatus.Active)])
  }

  predicate Acceptable(s: State, id: string, bid: nat) {
    id in s.listings && bid < |s.bids| && StandsOn(s.bids[bid], id)
  }

  function Percent(amount: real, percentage: real): real {
    amount * percentage / 100.0
  }

  function SaleOf(s: State, id: string, bid: nat): Sale
    requires id in s.listings && bid < |s.bids|
  {
    var l, b := s.listings[id], s.bids[bid];
    Sale(id, bid, l.seller, b.bidder, b.amount, Percent(b.amount, l.royaltyPercentage), Percent(b.amount, l.marketplaceFee))
  }

  function AfterAccept(s: State, id: string, bid: nat): State
    requires Acceptable(s, id, bid)
  {
    s.(sales := s.sales + [SaleOf(s, id, bid)],
       listings := s.listings[id := s.listings[id].(status := Sold)],
       bids := Retire(s.bids[bid := s.bids[bid].(status := Accepted)], id, Rejected))
  }

  predicate Cancellable(s: State, id: string, seller: string) {
    id in s.listings && s.listings[id].seller == seller && s.listings[id].status == ListingStatus.Active
  }

  function AfterCancel(s: State, id: string): State
    requires id in s.listings
  {
    s.(listings := s.listings[id := s.listings[id].(status := ListingStatus.Cancelled)], bids := Retire(s.bids, id, BidStatus.Cancelled))
  }

  /** Calls that throw leave the state alone; a new listing gets a new id. */
  function Next(s: State, step: Step): State {
    match step
    case Wait(d) => s.(now := s.now + d)
    case CreateListing(id, l) =>
      if id in s.listings then s else s.(listings := s.listings[id := l.(status := ListingStatus.Active)])
    case PlaceBid(id, bidder, amount) => if BidAllowed(s, id, amount) then AfterBid(s, id, bidder, amount) else s
    case AcceptBid(id, bid) => if Acceptable(s, id, bid) then AfterAccept(s, id, bid) else s
    case CancelListing(id, seller) => if Cancellable(s, id, seller) then AfterCancel(s, id) else s
  }

  function Run(s: State, steps: seq<Step>): State
    decreases steps
  {
    if steps == [] then s else Run(Next(s, steps[0]), steps[1..])
  }

  // ---------------------------------------------------------------- one sale per listing

  predicate HasSale(sales: seq<Sale>, id: string) {
    exists k :: 0 <= k < |sales| && sales[k].listing == id
  }

  /** Standing bids are on active listings; accepted bids are on sold ones, one each. */
  ghost predicate BidsFit(bids: seq<Bid>, listings: map<string, Listing>) {
    && (forall i :: 0 <= i < |bids| ==>
          && bids[i].listing in listings
          && (bids[i].status == BidStatus.Active ==> listings[bids[i].listing].status == ListingStatus.Active)
          && (bids[i].status == Accepted ==> listings[bids[i].listing].status == Sold))
    && (forall i, j :: 0 <= i < j < |bids| && bids[i].status == Accepted && bids[j].status == Accepted ==>
          bids[i].listing != bids[j].listing)
  }

  /** Every sale is the sale of its accepted bid. */
  ghost predicate SalesFit(bids: seq<Bid>, sales: seq<Sale>) {
    && (forall k :: 0 <= k < |sales| ==>
          && sales[k].bid < |bids|
          && bids[sales[k].bid] == Bid(sales[k].listing, sales[k].buyer, sales[k].price, Accepted))
    && (forall k, l :: 0 <= k < l < |sales| ==> sales[k].listing != sales[l].listing)
  }

  /** Sold listings are those with a sale. */
  ghost predicate SoldFit(listings: map<string, Listing>, sales: seq<Sale>) {
    forall id :: id in listings && listings[id].status == Sold ==> HasSale(sales, id)
  }

  ghost predicate OneSale(s: State) {
    BidsFit(s.bids, s.listings) && SalesFit(s.bids, s.sales) && SoldFit(s.listings, s.sales)
  }

  lemma SalesStay(bids: seq<Bid>, later: seq<Bid>, sales: seq<Sale>)
    requires SalesFit(bids, sales) && |bids| <= |later|
    requires forall i :: 0 <= i < |bids| && bids[i].status == Accepted ==> later[i] == bids[i]
    ensures SalesFit(later, sales)
  {
  }

  lemma BidOneSale(s: State, id: string, bidder: string, amount: real)
    requires OneSale(s) && BidAllowed(s, id, amount)
    ensures OneSale(AfterBid(s, id, bidder, amount))
  {
  }

  lemma AcceptFits(s: State, id: string, bid: nat)
    requires BidsFit(s.bids, s.listings) && Acceptable(s, id, bid)
    ensures var t := AfterAccept(s, id, bid); BidsFit(t.bids, t.listings)
  {
  }

  lemma AcceptSells(s: State, id: string, bid: nat)
    requires OneSale(s) && Acceptable(s, id, bid)
    ensures var t := AfterAccept(s, id, bid); SalesFit(t.bids, t.sales) && SoldFit(t.listings, t.sales)
  {
    hide Retire, Percent;
    var t := AfterAccept(s, id, bid);
    var n := |s.sales|;
    SalesStay(s.bids, t.bids, s.sales);
    forall k | 0 <= k < n ensures s.sales[k].listing != id {
      assert s.bids[s.sales[k].bid].listing == s.sales[k].listing;
    }
    assert t.sales[n].listing == id;
    forall x | x in t.listings && t.listings[x].status == Sold
      ensures HasSale(t.sales, x)
    {
      if x != id {
        var k :| 0 <= k < n && s.sales[k].listing == x;
        assert t.sales[k].listing == x;
      }
    }
  }

  lemma AcceptOneSale(s: State, id: string, bid: nat)
    requires OneSale(s) && Acceptable(s, id, bid)
    ensures OneSale(AfterAccept(s, id, bid))
  {
    hide BidsFit, SalesFit, SoldFit, AfterAccept;
    AcceptFits(s, id, bid);
    AcceptSells(s, id, bid);
  }

  lemma CancelOneSale(s: State, id: string)
    requires OneSale(s) && id in s.listings && s.listings[id].status == ListingStatus.Active
    ensures OneSale(AfterCancel(s, id))
  {
  }

  lemma StepOneSale(s: State, step: Step)
    requires OneSale(s)
    ensures OneSale(Next(s, step))
  {
    hide AfterBid, AfterAccept, AfterCancel, BidAllowed, Acceptable, SalesFit;
    match step
    case Wait(d) =>
    case CreateListing(id, l) =>
    case PlaceBid(id, bidder, amount) => if BidAllowed(s, id, amount) { BidOneSale(s, id, bidder, amount); }
    case AcceptBid(id, bid) => if Acceptable(s, id, bid) { AcceptOneSale(s, id, bid); }
    case CancelListing(id, seller) => if Cancellable(s, id, seller) { CancelOneSale(s, id); }
  }

  lemma {:induction false} RunOneSale(s: State, steps: seq<Step>)
    requires OneSale(s)
    ensures OneSale(Run(s, steps))
    decreases steps
  {
    if steps != [] {
      StepOneSale(s, steps[0]);
      RunOneSale(Next(s, steps[0]), steps[1..]);
    }
  }

  /**
   In every reachable state: a listing is sold if and only if it has a sale, it has at most one, a listing
   that is not active has no standing bid, and so whatever acceptBid accepts is on an active listing.
   */
  lemma OneSalePerListing(steps: seq<Step>, id: string)
    ensures var s := Run(INITIAL, steps);
      && (id in s.listings && s.listings[id].status == Sold <==> HasSale(s.sales, id))
      && (forall k, l :: 0 <= k < |s.sales| && 0 <= l < |s.sales| && s.sales[k].listing == s.sales[l].listing ==> k == l)
      && (forall i :: Acceptable(s, id, i) ==> s.listings[id].status == ListingStatus.Active)
  {
    RunOneSale(INITIAL, steps);
  }

  lemma ClosedStep(s: State, step: Step, id: string)
    requires OneSale(s) && id in s.listings && s.listings[id].status != ListingStatus.Active
    ensures id in Next(s, step).listings && Next(s, step).listings[id] == s.listings[id]
  {
  }

  lemma {:induction false} ClosedStays(s: State, steps: seq<Step>, id: string)
    requires OneSale(s) && id in s.listings && s.listings[id].status != ListingStatus.Active
    ensures var t := Run(s, steps); id in t.listings && t.listings[id] == s.listings[id]
    decreases steps
  {
    hide OneSale, Next;
    if steps != [] {
      StepOneSale(s, steps[0]);
      ClosedStep(s, steps[0], id);
      ClosedStays(Next(s, steps[0]), steps[1..], id);
    }
  }

  /** No sale follows a cancellation. */
  lemma NeverSoldAfterCancel(before: seq<Step>, id: string, seller: string, after: seq<Step>)
    requires Cancellable(Run(INITIAL, before), id, seller)
    ensures var t := Run(Next(Run(INITIAL, before), CancelListing(id, seller)), after);
      id in t.listings && t.listings[id].status == ListingStatus.Cancelled && !HasSale(t.sales, id)
  {
    RunOneSale(INITIAL, before);
    var s := Next(Run(INITIAL, before), CancelListing(id, seller));
    StepOneSale(Run(INITIAL, before), CancelListing(id, seller));
    ClosedStays(s, after, id);
    RunOneSale(s, after);
  }

  /** The first bid on a new listing, placed any time later: at least the price, or on an auction anything until it ends. */
  lemma FirstBid(before: seq<Step>, id: string, l: Listing, delay: nat, amount: real)
    requires id !in Run(INITIAL, before).listings
    ensures var s := Run(INITIAL, before);
      var t := Next(Next(s, CreateListing(id, l)), Wait(delay));
      BidAllowed(t, id, amount) <==>
        if l.kind == FixedPrice then l.price <= amount else l.auctionEndTime.None? || s.now + delay <= l.auctionEndTime.value
  {
    hide HasSale, SalesFit, SoldFit;
    RunOneSale(INITIAL, before);
  }

  // ---------------------------------------------------------------- what a sale records

  /** The sale is by the seller of the listing, and its royalty and fee are the listing's percentages of the price. */
  ghost predicate SaleFits(sale: Sale, listings: map<string, Listing>) {
    && sale.listing in listings
    && var l := listings[sale.listing];
       && sale.seller == l.seller
       && 100.0 * sale.royalty == sale.price * l.royaltyPercentage
       && 100.0 * sale.fee == sale.price * l.marketplaceFee
  }

  ghost predicate AllSalesFit(s: State) {
    forall k :: 0 <= k < |s.sales| ==> SaleFits(s.sales[k], s.listings)
  }

  lemma PercentOf(amount: real, percentage: real)
    ensures 100.0 * Percent(amount, percentage) == amount * percentage
  {
  }

  lemma StepSalesFit(s: State, step: Step)
    requires AllSalesFit(s)
    ensures AllSalesFit(Next(s, step))
  {
    hide Percent, Retire, BidAllowed;
    if step.AcceptBid? && Acceptable(s, step.id, step.bid) {
      PercentOf(s.bids[step.bid].amount, s.listings[step.id].royaltyPercentage);
      PercentOf(s.bids[step.bid].amount, s.listings[step.id].marketplaceFee);
    }
  }

  lemma {:induction false} RunSalesFit(s: State, steps: seq<Step>)
    requires AllSalesFit(s)
    ensures AllSalesFit(Run(s, steps))
    decreases steps
  {
    hide AllSalesFit, Next;
    if steps != [] {
      StepSalesFit(s, steps[0]);
      RunSalesFit(Next(s, steps[0]), steps[1..]);
    }
  }

  /** In every reachable state every sale is split as its listing says. */
  lemma SalesAreSplit(steps: seq<Step>, k: nat)
    requires k < |Run(INITIAL, steps).sales|
    ensures SaleFits(Run(INITIAL, steps).sales[k], Run(INITIAL, steps).listings)
  {
    RunSalesFit(INITIAL, steps);
  }

  // ---------------------------------------------------------------- auctions

  predicate LastOnListing(bids: seq<Bid>, i: nat)
    requires i < |bids|
  {
    forall j :: i < j < |bids| ==> bids[j].listing != bids[i].listing
  }

  /** Bids on listing `id`, which reads `l`: rising on an auction, only the last one standing or accepted. */
  ghost predicate OrderOn(bids: seq<Bid>, id: string, l: Listing) {
    match l.kind
    case FixedPrice => forall i :: 0 <= i < |bids| && bids[i].listing == id ==> bids[i].amount >= l.price
    case Auction =>
      && (forall i, j :: 0 <= i < j < |bids| && bids[i].listing == id && bids[j].listing == id ==>
            bids[i].amount < bids[j].amount && bids[i].status != BidStatus.Active && bids[i].status != Accepted)
      && (l.status == ListingStatus.Active ==> forall i :: 0 <= i < |bids| && bids[i].listing == id && LastOnListing(bids, i) ==>
            bids[i].status == BidStatus.Active)
  }

  ghost predicate AuctionOrder(s: State) {
    forall id :: id in s.listings ==> OrderOn(s.bids, id, s.listings[id])
  }

  /** The last bid on a listing that has one. */
  lemma LastExists(bids: seq<Bid>, i: nat) returns (last: nat)
    requires i < |bids|
    ensures i <= last < |bids| && bids[last].listing == bids[i].listing && LastOnListing(bids, last)
  {
    last := i;
    var j := i + 1;
    while j < |bids|
      invariant i <= last < j <= |bids| && bids[last].listing == bids[i].listing
      invariant forall m :: last < m < j ==> bids[m].listing != bids[i].listing
    {
      if bids[j].listing == bids[i].listing { last := j; }
      j := j + 1;
    }
  }

  /** A bid above the one standing bid is above every bid ever placed on the auction. */
  lemma BidBeatsAll(bids: seq<Bid>, id: string, l: Listing, amount: real, i: nat)
    requires OrderOn(bids, id, l) && l.kind == Auction && l.status == ListingStatus.Active
    requires forall k :: 0 <= k < |bids| && StandsOn(bids[k], id) ==> bids[k].amount < amount
    requires i < |bids| && bids[i].listing == id
    ensures bids[i].amount < amount && bids[i].status != Accepted
  {
    var last := LastExists(bids, i);
    assert StandsOn(bids[last], id);
  }

  lemma AuctionBidOrder(bids: seq<Bid>, id: string, l: Listing, bidder: string, amount: real)
    requires OrderOn(bids, id, l) && l.kind == Auction && l.status == ListingStatus.Active
    requires forall k :: 0 <= k < |bids| && StandsOn(bids[k], id) ==> bids[k].amount < amount
    ensures OrderOn(Retire(bids, id, Outbid) + [Bid(id, bidder, amount, BidStatus.Active)], id, l)
  {
    hide Retire;
    forall i | 0 <= i < |bids| && bids[i].listing == id
      ensures bids[i].amount < amount && bids[i].status != Accepted
    {
      BidBeatsAll(bids, id, l, amount, i);
    }
    var later := Retire(bids, id, Outbid) + [Bid(id, bidder, amount, BidStatus.Active)];
    assert later[|bids|].listing == id;
  }

  /** The order on one listing does not depend on bids elsewhere. */
  lemma OrderElsewhere(bids: seq<Bid>, later: seq<Bid>, id: string, l: Listing)
    requires OrderOn(bids, id, l) && |bids| <= |later|
    requires forall i :: 0 <= i < |bids| ==> later[i].listing == bids[i].listing && (bids[i].listing == id ==> later[i] == bids[i])
    requires forall i :: |bids| <= i < |later| ==> later[i].listing != id
    ensures OrderOn(later, id, l)
  {
  }

  lemma BidKeepsOrder(s: State, id: string, bidder: string, amount: real)
    requires AuctionOrder(s) && BidAllowed(s, id, amount)
    ensures AuctionOrder(AfterBid(s, id, bidder, amount))
  {
    hide Retire, OrderOn;
    var t := AfterBid(s, id, bidder, amount);
    forall x | x in s.listings ensures OrderOn(t.bids, x, s.listings[x]) {
      if x != id {
        OrderElsewhere(s.bids, t.bids, x, s.listings[x]);
      } else if s.listings[id].kind == Auction {
        AuctionBidOrder(s.bids, id, s.listings[id], bidder, amount);
      } else {
        FixedPriceBid(s, id, bidder, amount);
      }
    }
  }

  lemma FixedPriceBid(s: State, id: string, bidder: string, amount: real)
    requires AuctionOrder(s) && BidAllowed(s, id, amount) && s.listings[id].kind == FixedPrice
    ensures OrderOn(AfterBid(s, id, bidder, amount).bids, id, s.listings[id])
  {
  }

  /** Closing a listing: its standing bid may be accepted, and whatever else stood is retired. */
  lemma ClosingOrder(bids: seq<Bid>, later: seq<Bid>, id: string, l: Listing, closed: Listing)
    requires OrderOn(bids, id, l) && |later| == |bids|
    requires closed.kind == l.kind && closed.price == l.price && closed.status != ListingStatus.Active
    requires forall i :: 0 <= i < |bids| ==> later[i].listing == bids[i].listing && later[i].amount == bids[i].amount
    requires forall i :: 0 <= i < |bids| && !StandsOn(bids[i], id) ==> later[i] == bids[i]
    ensures OrderOn(later, id, closed)
  {
  }

  lemma ClosingKeepsOrder(s: State, t: State, id: string)
    requires AuctionOrder(s) && id in s.listings && t.listings.Keys == s.listings.Keys && |t.bids| == |s.bids|
    requires t.listings[id].status != ListingStatus.Active
    requires t.listings[id].kind == s.listings[id].kind && t.listings[id].price == s.listings[id].price
    requires forall x :: x in s.listings && x != id ==> t.listings[x] == s.listings[x]
    requires forall i :: 0 <= i < |s.bids| ==> t.bids[i].listing == s.bids[i].listing && t.bids[i].amount == s.bids[i].amount
    requires forall i :: 0 <= i < |s.bids| && !StandsOn(s.bids[i], id) ==> t.bids[i] == s.bids[i]
    ensures AuctionOrder(t)
  {
    hide OrderOn;
    forall x | x in t.listings ensures OrderOn(t.bids, x, t.listings[x]) {
      if x == id {
        ClosingOrder(s.bids, t.bids, id, s.listings[id], t.listings[id]);
      } else {
        OrderElsewhere(s.bids, t.bids, x, s.listings[x]);
      }
    }
  }

  lemma CreateKeepsOrder(s: State, id: string, l: Listing)
    requires OneSale(s) && AuctionOrder(s) && id !in s.listings
    ensures AuctionOrder(Next(s, CreateListing(id, l)))
  {
  }

  lemma StepOrder(s: State, step: Step)
    requires OneSale(s) && AuctionOrder(s)
    ensures AuctionOrder(Next(s, step))
  {
    hide OrderOn, Retire, OneSale, BidAllowed, SaleOf;
    match step
    case Wait(d) =>
    case CreateListing(id, l) => if id !in s.listings { CreateKeepsOrder(s, id, l); }
    case PlaceBid(id, bidder, amount) => if BidAllowed(s, id, amount) { BidKeepsOrder(s, id, bidder, amount); }
    case AcceptBid(id, bid) => if Acceptable(s, id, bid) { ClosingKeepsOrder(s, Next(s, step), id); }
    case CancelListing(id, seller) => if Cancellable(s, id, seller) { ClosingKeepsOrder(s, Next(s, step), id); }
  }

  lemma {:induction false} RunOrder(s: State, steps: seq<Step>)
    requires OneSale(s) && AuctionOrder(s)
    ensures OneSale(Run(s, steps)) && AuctionOrder(Run(s, steps))
    decreases steps
  {
    if steps != [] {
      StepOneSale(s, steps[0]);
      StepOrder(s, steps[0]);
      RunOrder(Next(s, steps[0]), steps[1..]);
    }
  }

  /**
   In every reachable state, for every bid: on an auction later bids are higher; while it is active its last bid
   stands and no other does; and the standing or accepted bid is higher than every other bid ever placed on it. On
   a fixed-price listing every bid, and so every sale, is at least the price. No bid stands on a closed listing.
   */
  lemma AuctionsGoToTheHighestBid(steps: seq<Step>, i: nat)
    requires i < |Run(INITIAL, steps).bids|
    ensures var s := Run(INITIAL, steps);
      var b := s.bids[i];
      && b.listing in s.listings
      && var l := s.listings[b.listing];
         && (b.status == BidStatus.Active ==> l.status == ListingStatus.Active)
         && (l.kind == FixedPrice ==> b.amount >= l.price)
         && (l.kind == Auction ==>
               && (l.status == ListingStatus.Active ==> (b.status == BidStatus.Active <==> LastOnListing(s.bids, i)))
               && (forall j :: 0 <= j < |s.bids| && j != i && s.bids[j].listing == b.listing ==>
                     && (i < j <==> b.amount < s.bids[j].amount)
                     && (b.status == BidStatus.Active || b.status == Accepted ==> s.bids[j].amount < b.amount)))
  {
    RunOrder(INITIAL, steps);
    var s := Run(INITIAL, steps);
    assert s.bids[i].listing in s.listings;
    assert OrderOn(s.bids, s.bids[i].listing, s.listings[s.bids[i].listing]);
    if s.listings[s.bids[i].listing].kind == Auction { OrderCompares(s.bids, s.listings[s.bids[i].listing], i); }
  }

  lemma OrderCompares(bids: seq<Bid>, l: Listing, i: nat)
    requires i < |bids| && OrderOn(bids, bids[i].listing, l) && l.kind == Auction
    ensures l.status == ListingStatus.Active ==> (bids[i].status == BidStatus.Active <==> LastOnListing(bids, i))
    ensures forall j :: 0 <= j < |bids| && j != i && bids[j].listing == bids[i].listing ==>
      && (i < j <==> bids[i].amount < bids[j].amount)
      && (bids[i].status == BidStatus.Active || bids[i].status == Accepted ==> bids[j].amount < bids[i].amount)
  {
  }

  // ---------------------------------------------------------------- the service

  class MarketplaceService {
    var now: int
    var listings: map<string, Listing>
    var bids: seq<Bid>
    var sales: seq<Sale>

    ghost function Abs(): State
      reads this
    {
      State(now, listings, bids, sales)
    }

    constructor ()
      ensures Abs() == INITIAL
    {
      now, listings, bids, sales := 0, map[], [], [];
    }

    /** The highest active bid on a listing, if there is one. */
    method HighestBid(listingId: string) returns (highest: Option<nat>)
      ensures highest.None? ==> forall i :: 0 <= i < |bids| ==> !StandsOn(bids[i], listingId)
      ensures highest.Some? ==>
                && highest.value < |bids| && StandsOn(bids[highest.value], listingId)
                && forall i :: 0 <= i < |bids| && StandsOn(bids[i], listingId) ==> bids[i].amount <= bids[highest.value].amount
    {
      highest := None;
      for k := 0 to |bids|
        invariant highest.None? ==> forall i :: 0 <= i < k ==> !StandsOn(bids[i], listingId)
        invariant highest.Some? ==>
          && highest.value < k && StandsOn(bids[highest.value], listingId)
          && forall i :: 0 <= i < k && StandsOn(bids[i], listingId) ==> bids[i].amount <= bids[highest.value].amount
      {
        if StandsOn(bids[k], listingId) && (highest.None? || bids[highest.value].amount < bids[k].amount) {
          highest := Some(k);
        }
      }
    }

    method PlaceBid(listingId: string, bidderAddress: string, amount: real) returns (ok: bool)
      modifies this`bids
      ensures Abs() == Next(old(Abs()), Step.PlaceBid(listingId, bidderAddress, amount))
      ensures ok <==>
        && listingId in listings && listings[listingId].status == ListingStatus.Active
        && var l := listings[listingId];
           && (l.kind == FixedPrice ==> amount >= l.price)
           && (l.kind == Auction ==>
                 && (l.auctionEndTime.None? || now <= l.auctionEndTime.value)
                 && forall i :: 0 <= i < |old(bids)| && StandsOn(old(bids)[i], listingId) ==> old(bids)[i].amount < amount)
      ensures !ok ==> bids == old(bids)
      ensures ok ==>
        && |bids| == |old(bids)| + 1 && bids[|old(bids)|] == Bid(listingId, bidderAddress, amount, BidStatus.Active)
        && forall i :: 0 <= i < |old(bids)| ==>
             bids[i] == if listings[listingId].kind == Auction && StandsOn(old(bids)[i], listingId)
                          then old(bids)[i].(status := Outbid) else old(bids)[i]
    {
      if listingId !in listings || listings[listingId].status != ListingStatus.Active {
        return false;
      }
      var listing := listings[listingId];
      if listing.kind == FixedPrice {
        if amount < listing.price {
          return false;
        }
      } else {
        if listing.auctionEndTime.Some? && now > listing.auctionEndTime.value {
          return false;
        }
        var highest := HighestBid(listingId);
        if highest.Some? && amount <= bids[highest.value].amount {
          return false;
        }
        bids := Retire(bids, listingId, Outbid);
      }
      bids := bids + [Bid(listingId, bidderAddress, amount, BidStatus.Active)];
      return true;
    }

    method AcceptBid(listingId: string, bidId: nat) returns (sale: Option<Sale>)
      modifies this
      ensures Abs() == Next(old(Abs()), Step.AcceptBid(listingId, bidId))
      ensures sale.Some? <==> listingId in old(listings) && bidId < |old(bids)| && StandsOn(old(bids)[bidId], listingId)
      ensures sale.None? ==> listings == old(listings) && bids == old(bids) && sales == old(sales)
      ensures sale.Some? ==>
        var l, b := old(listings)[listingId], old(bids)[bidId];
        && sales == old(sales) + [sale.value]
        && sale.value == Sale(listingId, bidId, l.seller, b.bidder, b.amount, sale.value.royalty, sale.value.fee)
        && 100.0 * sale.value.royalty == b.amount * l.royaltyPercentage && 100.0 * sale.value.fee == b.amount * l.marketplaceFee
        && listings == old(listings)[listingId := l.(status := Sold)]
        && |bids| == |old(bids)| && bids[bidId] == b.(status := Accepted)
        && forall i :: 0 <= i < |bids| && i != bidId ==>
             bids[i] == if StandsOn(old(bids)[i], listingId) then old(bids)[i].(status := Rejected) else old(bids)[i]
    {
      hide Retire;
      if listingId !in listings || bidId >= |bids| || bids[bidId].listing != listingId {
        return None;
      }
      if bids[bidId].status != BidStatus.Active {
        return None;
      }
      var listing, bid := listings[listingId], bids[bidId];
      var royaltyAmount := Percent(bid.amount, listing.royaltyPercentage);
      var marketplaceFee := Percent(bid.amount, listing.marketplaceFee);
      var record := Sale(listingId, bidId, listing.seller, bid.bidder, bid.amount, royaltyAmount, marketplaceFee);
      sales := sales + [record];
      listings := listings[listingId := listing.(status := Sold)];
      bids := bids[bidId := bid.(status := Accepted)];
      bids := Retire(bids, listingId, Rejected);
      return Some(record);
    }

    method CancelListing(listingId: string, sellerAddress: string) returns (ok: bool)
      modifies this
      ensures Abs() == Next(old(Abs()), Step.CancelListing(listingId, sellerAddress))
      ensures ok <==>
        && listingId in old(listings) && old(listings)[listingId].seller == sellerAddress
        && old(listings)[listingId].status == ListingStatus.Active
      ensures !ok ==> listings == old(listings) && bids == old(bids)
      ensures ok ==>
        && listings == old(listings)[listingId := old(listings)[listingId].(status := ListingStatus.Cancelled)]
        && |bids| == |old(bids)|
        && forall i :: 0 <= i < |bids| ==>
             bids[i] == if StandsOn(old(bids)[i], listingId) then old(bids)[i].(status := BidStatus.Cancelled) else old(bids)[i]
      ensures sales == old(sales)
    {
      if listingId !in listings || listings[listingId].seller != sellerAddress {
        return false;
      }
      if listings[listingId].status != ListingStatus.Active {
        return false;
      }
      listings := listings[listingId := listings[listingId].(status := ListingStatus.Cancelled)];
      bids := Retire(bids, listingId, BidStatus.Cancelled);
      return true;
    }
  }
}
