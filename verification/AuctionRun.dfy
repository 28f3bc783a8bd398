/** A running auction: deposits, bids and how they settle. */
module AuctionRun {
  import opened Options
  import opened Weights
  import opened Auction

  /** A bid that was placed. The code does not keep its maximum price; it is here to speak
      about. */
  datatype RunningBid = RunningBid(bidder: Key, currency: nat, bidId: nat, maxPrice: nat)

  /** A winnings address of zero is no address. */
  datatype BidderState = BidderState(winnings: nat, deposit: nat, placed: seq<nat>)

  datatype Deposit = Deposit(auction: nat, bidder: Key, depositId: nat, currency: nat, winnings: nat)

  datatype Bid = Bid(auction: nat, bidder: Key, currency: nat, maxPrice: nat, bidId: nat)

  datatype House = House(
    auction: nat,
    params: Params,
    depositIds: set<nat>,
    bidders: map<Key, BidderState>,
    bids: map<nat, seq<RunningBid>>,
    totalCurrency: nat)
  {
    function Bidder(k: Key): BidderState { if k in bidders then bidders[k] else BidderState(0, 0, []) }

    function BidsIn(rnd: nat): seq<RunningBid> { if rnd in bids then bids[rnd] else [] }
  }

  datatype Result = Done(h: House) | Dropped | Panicked

  function Open(auction: nat, p: Params): House { House(auction, p, {}, map[], map[], 0) }

  // ---------------------------------------------------------------- deposits and bids

  function PlaceDeposit(h: House, d: Deposit, rnd: nat): Result {
    var b := h.Bidder(d.bidder);
    if d.auction != h.auction || rnd < h.params.depositRound || rnd > h.params.LastRound() then Dropped
    else if d.depositId in h.depositIds then Dropped
    else if b.winnings != 0 && b.winnings != d.winnings then Dropped
    else if b.deposit + d.currency >= UINT64 then Dropped
    else Done(h.(depositIds := h.depositIds + {d.depositId},
                 bidders := h.bidders[d.bidder := b.(winnings := d.winnings, deposit := b.deposit + d.currency)]))
  }

  function PlaceBid(h: House, b: Bid, rnd: nat): Result
    requires Validated(h.params)
  {
    if b.auction != h.auction || !InRounds(h.params, rnd) then Dropped
    else match CurrentPrice(h.params, rnd)
         case None => Panicked
         case Some(price) =>
           var s := h.Bidder(b.bidder);
           if b.maxPrice < price then Dropped
           else if b.maxPrice * h.params.minBidAlgos >= UINT64 then Dropped
           else if b.currency < b.maxPrice * h.params.minBidAlgos then Dropped
           else if b.currency > s.deposit then Dropped
           else if b.bidId in s.placed then Dropped
           else if h.totalCurrency + b.currency >= UINT64 then Dropped
           else Done(h.(bidders := h.bidders[b.bidder := s.(deposit := s.deposit - b.currency, placed := s.placed + [b.bidId])],
                        totalCurrency := h.totalCurrency + b.currency,
                        bids := h.bids[rnd := h.BidsIn(rnd) + [RunningBid(b.bidder, b.currency, b.bidId, b.maxPrice)]]))
  }

  // ---------------------------------------------------------------- sums of bids

  /** The currency of the bids of one bidder, or of all. */
  function SumOf(bs: seq<RunningBid>, who: Option<Key>): nat {
    if bs == [] then 0
    else SumOf(bs[..|bs| - 1], who) + if who.None? || who.value == bs[|bs| - 1].bidder then bs[|bs| - 1].currency else 0
  }

  function PerRound(bids: map<nat, seq<RunningBid>>, who: Option<Key>): nat -> nat {
    (r: nat) => if r in bids then SumOf(bids[r], who) else 0
  }

  ghost function Pledged(bids: map<nat, seq<RunningBid>>, who: Option<Key>): nat {
    Weigh(PerRound(bids, who), bids.Keys)
  }

  lemma PledgedMore(bids: map<nat, seq<RunningBid>>, who: Option<Key>, rnd: nat, bs: seq<RunningBid>, b: RunningBid)
    requires bs == if rnd in bids then bids[rnd] else []
    ensures Pledged(bids[rnd := bs + [b]], who) == Pledged(bids, who) + if who.None? || who.value == b.bidder then b.currency else 0
  {
    var bids' := bids[rnd := bs + [b]];
    var v, w := PerRound(bids, who), PerRound(bids', who);
    WeighRemove(w, bids'.Keys, rnd);
    if rnd in bids { WeighRemove(v, bids.Keys, rnd); } else { assert bids.Keys - {rnd} == bids.Keys; }
    WeighSame(v, w, bids.Keys - {rnd}, bids'.Keys - {rnd});
    assert (bs + [b])[..|bs + [b]| - 1] == bs;
    assert bids'[rnd] == bs + [b];
    assert w(rnd) == SumOf(bids'[rnd], who);
    assert v(rnd) == SumOf(bs, who);
  }

  // ---------------------------------------------------------------- what every message keeps

  /** A placed bid could pay for the least amount at a price that is no less than its round's. */
  predicate Backed(p: Params, rnd: nat, b: RunningBid)
    requires Validated(p) && InRounds(p, rnd)
  {
    CurrentPrice(p, rnd).Some? && CurrentPrice(p, rnd).value <= b.maxPrice && b.maxPrice * p.minBidAlgos <= b.currency
  }

  ghost predicate Good(h: House) {
    && Proper(h.params)
    && h.totalCurrency == Pledged(h.bids, None) < UINT64
    && (forall r :: r in h.bids ==> InRounds(h.params, r))
    && (forall r, i :: r in h.bids && 0 <= i < |h.bids[r]| ==> Backed(h.params, r, h.bids[r][i]))
  }

  lemma OpenGood(auction: nat, p: Params)
    requires Proper(p)
    ensures Good(Open(auction, p))
  {
  }

  lemma BidKeeps(h: House, b: Bid, rnd: nat)
    requires Good(h) && PlaceBid(h, b, rnd).Done?
    ensures Good(PlaceBid(h, b, rnd).h)
  {
    var h' := PlaceBid(h, b, rnd).h;
    var rb := RunningBid(b.bidder, b.currency, b.bidId, b.maxPrice);
    PledgedMore(h.bids, None, rnd, h.BidsIn(rnd), rb);
    forall r, i | r in h'.bids && 0 <= i < |h'.bids[r]| ensures Backed(h.params, r, h'.bids[r][i]) {
      if r == rnd {
        if i < |h.BidsIn(rnd)| { assert h'.bids[r][i] == h.bids[r][i]; } else { assert h'.bids[r][i] == rb; }
      } else {
        assert h'.bids[r] == h.bids[r];
      }
    }
  }

  /** What a bidder has brought and not taken back: the deposit left and all bids. */
  ghost function Stake(h: House, k: Key): nat { h.Bidder(k).deposit + Pledged(h.bids, Some(k)) }

  lemma BidConserves(h: House, b: Bid, rnd: nat, k: Key)
    requires Good(h) && PlaceBid(h, b, rnd).Done?
    ensures Stake(PlaceBid(h, b, rnd).h, k) == Stake(h, k)
  {
    PledgedMore(h.bids, Some(k), rnd, h.BidsIn(rnd), RunningBid(b.bidder, b.currency, b.bidId, b.maxPrice));
  }

  lemma DepositConserves(h: House, d: Deposit, rnd: nat, k: Key)
    requires PlaceDeposit(h, d, rnd).Done?
    ensures Stake(PlaceDeposit(h, d, rnd).h, k) == Stake(h, k) + if k == d.bidder then d.currency else 0
  {
  }

  // ---------------------------------------------------------------- runs

  datatype Event = DepositAt(d: Deposit, drnd: nat) | BidAt(b: Bid, brnd: nat)

  function Handle(h: House, e: Event): Result
    requires Validated(h.params)
  {
    match e case DepositAt(d, rnd) => PlaceDeposit(h, d, rnd) case BidAt(b, rnd) => PlaceBid(h, b, rnd)
  }

  /** The state after a series of messages; None after a panic. */
  function Run(h: House, es: seq<Event>): (r: Option<House>)
    requires Validated(h.params)
    ensures r.Some? ==> r.value.params == h.params
  {
    if es == [] then Some(h)
    else match Run(h, es[..|es| - 1])
         case None => None
         case Some(mid) =>
           (match Handle(mid, es[|es| - 1])
            case Done(h') => Some(h')
            case Dropped => Some(mid)
            case Panicked => None)
  }

  /** What a bidder's accepted deposits add up to. */
  function Deposited(h: House, es: seq<Event>, k: Key): nat
    requires Validated(h.params)
  {
    if es == [] then 0
    else
      var before := Deposited(h, es[..|es| - 1], k);
      var mid := Run(h, es[..|es| - 1]);
      var e := es[|es| - 1];
      if mid.Some? && e.DepositAt? && e.d.bidder == k && PlaceDeposit(mid.value, e.d, e.drnd).Done? then before + e.d.currency else before
  }

  /** Over every run each bidder's deposits are what is left of them and what was bid, and no
      sum overflows; a run panics only if prices can. */
  lemma {:induction false} RunConserves(h: House, es: seq<Event>, k: Key)
    requires Good(h)
    ensures Run(h, es).Some? ==> Good(Run(h, es).value) && Stake(Run(h, es).value, k) == Stake(h, k) + Deposited(h, es, k)
    ensures PricesFit(h.params) ==> Run(h, es).Some?
  {
    if es != [] {
      var head, e := es[..|es| - 1], es[|es| - 1];
      RunConserves(h, head, k);
      var mid := Run(h, head);
      if mid.Some? { StepConserves(mid.value, e, k); }
    }
  }

  lemma StepConserves(h: House, e: Event, k: Key)
    requires Good(h)
    ensures Handle(h, e).Done? ==>
      && Good(Handle(h, e).h)
      && Stake(Handle(h, e).h, k) == Stake(h, k) + if e.DepositAt? && e.d.bidder == k then e.d.currency else 0
    ensures PricesFit(h.params) ==> !Handle(h, e).Panicked?
  {
    if Handle(h, e).Done? { EventConserves(h, e, k); }
    if PricesFit(h.params) { NoPanic(h, e); }
  }

  lemma EventConserves(h: House, e: Event, k: Key)
    requires Good(h) && Handle(h, e).Done?
    ensures Good(Handle(h, e).h)
    ensures Stake(Handle(h, e).h, k) == Stake(h, k) + if e.DepositAt? && e.d.bidder == k then e.d.currency else 0
  {
    match e
    case DepositAt(d, rnd) => DepositConserves(h, d, rnd, k);
    case BidAt(b, rnd) =>
      BidKeeps(h, b, rnd);
      BidConserves(h, b, rnd, k);
  }

  lemma NoPanic(h: House, e: Event)
    requires Proper(h.params) && PricesFit(h.params)
    ensures !Handle(h, e).Panicked?
  {
    PanicExact(h.params);
  }

  // ---------------------------------------------------------------- settlement

  /** All bids from the first round to rnd, in order. */
  function Winning(h: House, rnd: nat): seq<RunningBid>
    decreases rnd
  {
    if rnd < h.params.firstRound then []
    else (if rnd == 0 then [] else Winning(h, rnd - 1)) + h.BidsIn(rnd)
  }

  /** What is left of n algos after some bids took what they can pay for. */
  function Left(bs: seq<RunningBid>, price: nat, n: nat, min: nat): (l: nat)
    requires price > 0
    ensures l <= n
  {
    if bs == [] then n
    else
      var l := Left(bs[..|bs| - 1], price, n, min);
      var won := Min(bs[|bs| - 1].currency / price, l);
      if won >= min then l - won else l
  }

  datatype Won = Won(bid: RunningBid, algos: nat)

  function Outcomes(bs: seq<RunningBid>, price: nat, n: nat, min: nat): seq<Won>
    requires price > 0
  {
    if bs == [] then []
    else
      var head := bs[..|bs| - 1];
      var won := Min(bs[|bs| - 1].currency / price, Left(head, price, n, min));
      Outcomes(head, price, n, min) + if won >= min then [Won(bs[|bs| - 1], won)] else []
  }

  function Sold(ws: seq<Won>): nat {
    if ws == [] then 0 else Sold(ws[..|ws| - 1]) + ws[|ws| - 1].algos
  }

  /** What is sold and what is left make up all that was for sale. */
  lemma {:induction false} SoldAndLeft(bs: seq<RunningBid>, price: nat, n: nat, min: nat)
    requires price > 0
    ensures Sold(Outcomes(bs, price, n, min)) + Left(bs, price, n, min) == n
  {
    if bs != [] {
      var head := bs[..|bs| - 1];
      SoldAndLeft(head, price, n, min);
      var ws := Outcomes(head, price, n, min);
      var won := Min(bs[|bs| - 1].currency / price, Left(head, price, n, min));
      if won >= min { assert (ws + [Won(bs[|bs| - 1], won)])[..|ws|] == ws; } else { assert ws + [] == ws; }
    }
  }

  /** Every win is some bid's, and costs no more than it. */
  lemma {:induction false} WinsArePaid(bs: seq<RunningBid>, price: nat, n: nat, min: nat, i: nat)
    requires price > 0 && i < |Outcomes(bs, price, n, min)|
    ensures var w := Outcomes(bs, price, n, min)[i]; w.bid in bs && w.algos * price <= w.bid.currency && w.algos >= min
  {
    var head, b := bs[..|bs| - 1], bs[|bs| - 1];
    if i < |Outcomes(head, price, n, min)| {
      WinsArePaid(head, price, n, min, i);
    } else {
      Quotient(b.currency, price);
      Scale(Min(b.currency / price, Left(head, price, n, min)), b.currency / price, price);
    }
  }

  /** What the wins of one bidder cost. */
  function Spent(ws: seq<Won>, price: nat, k: Key): nat {
    if ws == [] then 0
    else Spent(ws[..|ws| - 1], price, k) + if ws[|ws| - 1].bid.bidder == k then ws[|ws| - 1].algos * price else 0
  }

  /** No bidder's wins cost more than that bidder's bids. */
  lemma {:induction false} SpentCovered(bs: seq<RunningBid>, price: nat, n: nat, min: nat, k: Key)
    requires price > 0
    ensures Spent(Outcomes(bs, price, n, min), price, k) <= SumOf(bs, Some(k))
  {
    if bs != [] {
      var head, b := bs[..|bs| - 1], bs[|bs| - 1];
      SpentCovered(head, price, n, min, k);
      var ws := Outcomes(head, price, n, min);
      var won := Min(b.currency / price, Left(head, price, n, min));
      Quotient(b.currency, price);
      Scale(won, b.currency / price, price);
      if won >= min { assert (ws + [Won(b, won)])[..|ws|] == ws; } else { assert ws + [] == ws; }
    }
  }

  /** The whole algos that the bids could pay for. */
  function Affordable(bs: seq<RunningBid>, price: nat): nat
    requires price > 0
  {
    if bs == [] then 0 else Affordable(bs[..|bs| - 1], price) + bs[|bs| - 1].currency / price
  }

  lemma PaysForLeast(b: RunningBid, price: nat, min: nat)
    requires price > 0 && min * price <= b.currency
    ensures b.currency / price >= min
  {
    QuotientExact(min, price);
    QuotientMonotone(min * price, b.currency, price);
  }

  /** Either every bid got all it could pay for, or less than the least amount is left. */
  lemma {:induction false} AllOrLittle(bs: seq<RunningBid>, price: nat, n: nat, min: nat)
    requires price > 0 && min > 0
    requires forall i :: 0 <= i < |bs| ==> min * price <= bs[i].currency
    ensures Left(bs, price, n, min) + Affordable(bs, price) == n || Left(bs, price, n, min) < min
  {
    if bs != [] {
      AllOrLittle(bs[..|bs| - 1], price, n, min);
      PaysForLeast(bs[|bs| - 1], price, min);
    }
  }

  lemma Distributes(a: nat, b: nat, k: nat)
    ensures (a + b) * k == a * k + b * k
  {
  }

  /** Rounding loses less than one algo for each bid. */
  lemma {:induction false} RoundingLoss(bs: seq<RunningBid>, price: nat)
    requires price > 0
    ensures SumOf(bs, None) + |bs| <= Affordable(bs, price) * price + |bs| * price
  {
    if bs != [] {
      var head, b := bs[..|bs| - 1], bs[|bs| - 1];
      RoundingLoss(head, price);
      Quotient(b.currency, price);
      Distributes(Affordable(head, price), b.currency / price, price);
      Distributes(|head|, 1, price);
    }
  }

  lemma FewUnsold(left: nat, afford: nat, n: nat, price: nat, sum: nat, k: nat)
    requires price > 0 && k > 0 && left + afford == n && n * price <= sum && sum + k <= afford * price + k * price
    ensures left < k
  {
    assert left * price + afford * price == n * price;
    Cancel(left, k, price);
  }

  /** In a cleared auction less than one algo for each winning bid, or less than the least
      amount, stays unsold. */
  lemma ClearedSells(bs: seq<RunningBid>, price: nat, n: nat, min: nat)
    requires price > 0 && min > 0 && n > 0
    requires forall i :: 0 <= i < |bs| ==> min * price <= bs[i].currency
    requires n * price <= SumOf(bs, None)
    ensures Left(bs, price, n, min) < |bs| || Left(bs, price, n, min) < min
  {
    AllOrLittle(bs, price, n, min);
    RoundingLoss(bs, price);
    Scale(1, n, price);
    if Left(bs, price, n, min) + Affordable(bs, price) == n && bs != [] {
      FewUnsold(Left(bs, price, n, min), Affordable(bs, price), n, price, SumOf(bs, None), |bs|);
    }
  }

  // ---------------------------------------------------------------- the winning bids

  /** A round in which a winning bid was placed. */
  lemma {:induction false} PlacedIn(h: House, rnd: nat, b: RunningBid) returns (r: nat)
    requires b in Winning(h, rnd)
    ensures h.params.firstRound <= r <= rnd && r in h.bids && b in h.bids[r]
  {
    if b in h.BidsIn(rnd) { r := rnd; } else { r := PlacedIn(h, rnd - 1, b); }
  }

  /** The final price is at most the maximum price of every winning bid, which can pay for
      the least amount at that price. */
  lemma PriceBelowMax(h: House, rnd: nat, b: RunningBid)
    requires Good(h) && InRounds(h.params, rnd) && b in Winning(h, rnd)
    ensures CurrentPrice(h.params, rnd).Some? && CurrentPrice(h.params, rnd).value <= b.maxPrice
    ensures h.params.minBidAlgos * CurrentPrice(h.params, rnd).value <= b.currency
  {
    var r := PlacedIn(h, rnd, b);
    var i :| 0 <= i < |h.bids[r]| && h.bids[r][i] == b;
    assert Backed(h.params, r, h.bids[r][i]);
    PricesFall(h.params, r, rnd);
    Scale(CurrentPrice(h.params, rnd).value, b.maxPrice, h.params.minBidAlgos);
  }

  lemma {:induction false} SumConcat(xs: seq<RunningBid>, ys: seq<RunningBid>, who: Option<Key>)
    ensures SumOf(xs + ys, who) == SumOf(xs, who) + SumOf(ys, who)
    decreases |ys|
  {
    if ys == [] {
      assert xs + ys == xs;
    } else {
      assert (xs + ys)[..|xs + ys| - 1] == xs + ys[..|ys| - 1];
      SumConcat(xs, ys[..|ys| - 1], who);
    }
  }

  function RoundsTo(bids: map<nat, seq<RunningBid>>, rnd: nat): set<nat> { set r | r in bids && r <= rnd }

  ghost function SumTo(bids: map<nat, seq<RunningBid>>, rnd: nat, who: Option<Key>): nat {
    Weigh(PerRound(bids, who), RoundsTo(bids, rnd))
  }

  lemma SumToStep(bids: map<nat, seq<RunningBid>>, rnd: nat, who: Option<Key>)
    ensures SumTo(bids, rnd, who) ==
      (if rnd == 0 then 0 else SumTo(bids, rnd - 1, who)) + if rnd in bids then SumOf(bids[rnd], who) else 0
  {
    var w := PerRound(bids, who);
    var rest := RoundsTo(bids, rnd) - {rnd};
    if rnd > 0 { assert rest == RoundsTo(bids, rnd - 1); } else { assert rest == {}; }
    if rnd in bids {
      WeighRemove(w, RoundsTo(bids, rnd), rnd);
      assert w(rnd) == SumOf(bids[rnd], who);
    } else {
      assert rest == RoundsTo(bids, rnd);
    }
  }

  lemma {:induction false} WinningSum(h: House, rnd: nat, who: Option<Key>)
    requires forall r :: r in h.bids ==> r >= h.params.firstRound
    ensures SumOf(Winning(h, rnd), who) == SumTo(h.bids, rnd, who)
    decreases rnd
  {
    if rnd < h.params.firstRound {
      assert RoundsTo(h.bids, rnd) == {};
    } else {
      SumToStep(h.bids, rnd, who);
      if rnd > 0 {
        WinningSum(h, rnd - 1, who);
        SumConcat(Winning(h, rnd - 1), h.BidsIn(rnd), who);
      } else {
        assert [] + h.BidsIn(rnd) == h.BidsIn(rnd);
      }
    }
  }

  /** No more takes part in a settlement than was pledged. */
  lemma WinningPledged(h: House, rnd: nat, who: Option<Key>)
    requires Good(h)
    ensures SumOf(Winning(h, rnd), who) <= Pledged(h.bids, who)
  {
    WinningSum(h, rnd, who);
    WeighSubset(PerRound(h.bids, who), RoundsTo(h.bids, rnd), h.bids.Keys);
  }

  /** The running sum of a settlement never exceeds the total currency, so it cannot overflow. */
  lemma WinningFits(h: House, rnd: nat)
    requires Good(h)
    ensures SumOf(Winning(h, rnd), None) <= h.totalCurrency < UINT64
  {
    WinningPledged(h, rnd, None);
  }

  // ---------------------------------------------------------------- the settlement loops

  /** The bids up to a round can buy everything at its price. */
  predicate Clears(h: House, rnd: nat)
    requires Validated(h.params) && InRounds(h.params, rnd)
  {
    CurrentPrice(h.params, rnd).Some? && SumOf(Winning(h, rnd), None) >= h.params.numAlgos * CurrentPrice(h.params, rnd).value
  }

  datatype Settlement = Settlement(price: nat, cleared: bool, outcomes: seq<Won>)

  method AddBids(bs: seq<RunningBid>, currency: nat) returns (sum: nat)
    ensures sum == currency + SumOf(bs, None)
  {
    sum := currency;
    var i := 0;
    while i < |bs|
      invariant 0 <= i <= |bs| && sum == currency + SumOf(bs[..i], None)
    {
      assert bs[..i + 1][..i] == bs[..i];
      sum := sum + bs[i].currency;
      i := i + 1;
    }
    assert bs[..i] == bs;
  }

  method Award(bs: seq<RunningBid>, price: nat, n: nat, min: nat) returns (ws: seq<Won>)
    requires price > 0
    ensures ws == Outcomes(bs, price, n, min)
  {
    ws := [];
    var available := n;
    var i := 0;
    while i < |bs|
      invariant 0 <= i <= |bs|
      invariant ws == Outcomes(bs[..i], price, n, min) && available == Left(bs[..i], price, n, min)
    {
      assert bs[..i + 1][..i] == bs[..i];
      var won := bs[i].currency / price;
      if won > available { won := available; }
      if won >= min {
        ws := ws + [Won(bs[i], won)];
        available := available - won;
      }
      i := i + 1;
    }
    assert bs[..i] == bs;
  }

  /** The price at which an auction settles, whether it clears, and the bids that take part. */
  datatype Close = Close(price: nat, cleared: bool, winners: seq<RunningBid>)

  /** An auction closes in the first round that clears, or else in the last one. */
  ghost predicate ClosesIn(h: House, rnd: nat, c: Close)
    requires Validated(h.params)
  {
    && InRounds(h.params, rnd) && CurrentPrice(h.params, rnd) == Some(c.price) && c.winners == Winning(h, rnd)
    && (forall r: nat :: h.params.firstRound <= r < rnd ==> InRounds(h.params, r) && !Clears(h, r))
    && (c.cleared <==> Clears(h, rnd))
    && (!c.cleared ==> rnd == h.params.LastRound() && c.price == h.params.lastPrice)
  }

  /** The loop finds a close, panics on a price, or counts its rounds past the largest 64-bit
      number and goes on at round 0. */
  datatype Search = Found(close: Close) | PricePanic | WrapAround

  /** No round of the auction clears. */
  ghost predicate NeverClears(h: House)
    requires Validated(h.params)
  {
    forall r: nat :: InRounds(h.params, r) ==> !Clears(h, r)
  }

  /** Some price overflows, or nothing stops the loop at the last round. */
  ghost predicate CannotSettle(h: House)
    requires Validated(h.params)
  {
    !PricesFit(h.params) || (h.params.LastRound() == UINT64 - 1 && NeverClears(h))
  }

  /** One round: its bids are added, and its price is asked. */
  method Visit(h: House, r: nat, before: seq<RunningBid>, sum: nat) returns (winners: seq<RunningBid>, currency: nat, price: Option<nat>)
    requires Validated(h.params) && InRounds(h.params, r)
    requires before == (if r == 0 then [] else Winning(h, r - 1)) && sum == SumOf(before, None)
    ensures winners == Winning(h, r) && currency == SumOf(winners, None) && price == CurrentPrice(h.params, r)
    ensures price.Some? ==> (currency >= h.params.numAlgos * price.value <==> Clears(h, r))
  {
    SumConcat(before, h.BidsIn(r), None);
    currency := AddBids(h.BidsIn(r), sum);
    winners := before + h.BidsIn(r);
    price := CurrentPrice(h.params, r);
  }

  /** The loop over the rounds; ok says whether all prices fit. */
  method Scan(h: House, ghost ok: bool) returns (out: Search, ghost rnd: nat)
    requires Good(h) && InRounds(h.params, h.params.firstRound)
    requires ok ==> forall r: nat :: InRounds(h.params, r) ==> CurrentPrice(h.params, r).Some?
    requires !ok ==> CurrentPrice(h.params, h.params.firstRound).None?
    ensures out.PricePanic? <==> !ok
    ensures out.WrapAround? <==> ok && h.params.LastRound() == UINT64 - 1 && NeverClears(h)
    ensures out.Found? && out.close.cleared ==> ClosesIn(h, rnd, out.close)
    ensures out.Found? && !out.close.cleared ==> NeverClears(h) && out.close == Close(h.params.lastPrice, false, Winning(h, h.params.LastRound()))
  {
    var p := h.params;
    var r := p.firstRound;
    var currency := 0;
    var winners: seq<RunningBid> := [];
    assert p.firstRound > 0 ==> Winning(h, p.firstRound - 1) == [];
    while r <= p.LastRound()
      invariant p.firstRound <= r <= p.LastRound() + 1 && r < UINT64
      invariant winners == if r == 0 then [] else Winning(h, r - 1)
      invariant currency == SumOf(winners, None)
      invariant forall x: nat :: p.firstRound <= x < r ==> !Clears(h, x)
      invariant r > p.firstRound ==> ok
    {
      var price;
      winners, currency, price := Visit(h, r, winners, currency);
      if price.None? { return PricePanic, r; }
      if currency >= p.numAlgos * price.value { return Found(Close(price.value, true, winners)), r; }
      if r + 1 == UINT64 { return WrapAround, r; }
      r := r + 1;
    }
    return Found(Close(p.lastPrice, false, winners)), r - 1;
  }

  method FindClose(h: House) returns (out: Search, ghost rnd: nat)
    requires Good(h)
    ensures out.PricePanic? <==> !PricesFit(h.params)
    ensures out.WrapAround? <==>
      PricesFit(h.params) && h.params.LastRound() == UINT64 - 1 && NeverClears(h)
    ensures out.Found? ==> ClosesIn(h, rnd, out.close)
  {
    ghost var p := h.params;
    Scale(1, p.numChunks, p.priceChunkRounds);
    PanicExact(p);
    ghost var ok := CurrentPrice(p, p.firstRound).Some?;
    if ok { FirstDecides(p, p.firstRound); }
    out, rnd := Scan(h, ok);
    if out.Found? && !out.close.cleared {
      EndPrices(p);
      rnd := p.LastRound();
    }
  }

  /** None when the auction does not settle. */
  method Settle(h: House) returns (out: Option<Settlement>, ghost rnd: nat, ghost c: Close)
    requires Good(h)
    ensures out.None? <==> CannotSettle(h)
    ensures out.Some? ==>
      && ClosesIn(h, rnd, c) && c.price > 0
      && out.value == Settlement(c.price, c.cleared, Outcomes(c.winners, c.price, h.params.numAlgos, h.params.minBidAlgos))
  {
    var found, where := FindClose(h);
    rnd := where;
    if !found.Found? {
      c := Close(0, false, []);
      return None, rnd, c;
    }
    c := found.close;
    PriceBounds(h.params, rnd);
    var ws := Award(found.close.winners, found.close.price, h.params.numAlgos, h.params.minBidAlgos);
    out := Some(Settlement(found.close.price, found.close.cleared, ws));
  }

  lemma {:induction false} NoBids(h: House, rnd: nat)
    requires h.bids == map[]
    ensures Winning(h, rnd) == []
    decreases rnd
  {
    if rnd > 0 && rnd >= h.params.firstRound { NoBids(h, rnd - 1); }
  }

  /** An auction that ends in the largest 64-bit round and gets no bids never settles, though
      no price panics. */
  lemma LastRoundWraps()
    ensures var p := Params(0, UINT64 - 2, 1, 2, 1, 1, 1, 1);
      Proper(p) && PricesFit(p) && CannotSettle(Open(0, p))
  {
    var p := Params(0, UINT64 - 2, 1, 2, 1, 1, 1, 1);
    forall r: nat | InRounds(p, r) ensures !Clears(Open(0, p), r) {
      NoBids(Open(0, p), r);
      if CurrentPrice(p, r).Some? { PriceBounds(p, r); }
    }
  }

  /** The price of the first round decides whether any price panics. */
  lemma FirstDecides(p: Params, r: nat)
    requires Proper(p) && InRounds(p, p.firstRound) && InRounds(p, r)
    requires CurrentPrice(p, p.firstRound).Some?
    ensures PricesFit(p)
  {
    forall x: nat | InRounds(p, x) ensures CurrentPrice(p, x).Some? { PricesFall(p, p.firstRound, x); }
    PanicExact(p);
  }

  /** A settlement sells at most what is for sale; each win costs no more than its bid, at a
      price no higher than the bid's maximum; and when the auction clears, the unsold rest is
      less than the number of winning bids or less than the least amount. */
  lemma SettlementFair(h: House, rnd: nat, i: nat)
    requires Good(h) && InRounds(h.params, rnd) && CurrentPrice(h.params, rnd).Some? && CurrentPrice(h.params, rnd).value > 0
    ensures var p := h.params;
      var price := CurrentPrice(p, rnd).value;
      var ws := Outcomes(Winning(h, rnd), price, p.numAlgos, p.minBidAlgos);
      && Sold(ws) <= p.numAlgos
      && (i < |ws| ==> ws[i].bid in Winning(h, rnd) && ws[i].algos * price <= ws[i].bid.currency && price <= ws[i].bid.maxPrice)
      && (Clears(h, rnd) ==> p.numAlgos - Sold(ws) < |Winning(h, rnd)| || p.numAlgos - Sold(ws) < p.minBidAlgos)
  {
    var p := h.params;
    var price := CurrentPrice(p, rnd).value;
    var bs := Winning(h, rnd);
    SoldAndLeft(bs, price, p.numAlgos, p.minBidAlgos);
    var ws := Outcomes(bs, price, p.numAlgos, p.minBidAlgos);
    if i < |ws| {
      WinsArePaid(bs, price, p.numAlgos, p.minBidAlgos, i);
      PriceBelowMax(h, rnd, ws[i].bid);
    }
    if Clears(h, rnd) {
      forall j | 0 <= j < |bs| ensures p.minBidAlgos * price <= bs[j].currency { PriceBelowMax(h, rnd, bs[j]); }
      ClearedSells(bs, price, p.numAlgos, p.minBidAlgos);
    }
  }

  /** From its start to its end, for any messages in any order: what each bidder deposited is
      what is left and what was bid; the auction sells at most what is for sale, each bidder's
      wins cost no more than that bidder's bids, no win is above its bid's maximum price, and
      a cleared auction leaves little unsold. */
  lemma AuctionFair(auction: nat, p: Params, es: seq<Event>, rnd: nat, c: Close, k: Key, i: nat)
    requires Proper(p) && Run(Open(auction, p), es).Some? && ClosesIn(Run(Open(auction, p), es).value, rnd, c)
    ensures var h := Run(Open(auction, p), es).value;
      && Good(h) && c.price > 0
      && Deposited(Open(auction, p), es, k) == h.Bidder(k).deposit + Pledged(h.bids, Some(k))
      && var ws := Outcomes(c.winners, c.price, p.numAlgos, p.minBidAlgos);
      && Sold(ws) <= p.numAlgos && Spent(ws, c.price, k) <= Pledged(h.bids, Some(k))
      && (i < |ws| ==> ws[i].bid in c.winners && ws[i].algos * c.price <= ws[i].bid.currency && c.price <= ws[i].bid.maxPrice)
      && (c.cleared ==> p.numAlgos - Sold(ws) < |c.winners| || p.numAlgos - Sold(ws) < p.minBidAlgos)
  {
    var h := Run(Open(auction, p), es).value;
    OpenGood(auction, p);
    RunConserves(Open(auction, p), es, k);
    PriceBounds(p, rnd);
    SettlementFair(h, rnd, i);
    SpentCovered(c.winners, c.price, p.numAlgos, p.minBidAlgos, k);
    WinningPledged(h, rnd, Some(k));
  }

  // ---------------------------------------------------------------- the object

  class RunningAuction {
    const auction: nat
    const params: Params
    var depositIds: set<nat>
    var bidders: map<Key, BidderState>
    var bids: map<nat, seq<RunningBid>>
    var totalCurrency: nat

    function Model(): House
      reads this
    {
      House(auction, params, depositIds, bidders, bids, totalCurrency)
    }

    constructor (a: nat, p: Params)
      ensures Model() == Open(a, p)
    {
      auction, params, depositIds, bidders, bids, totalCurrency := a, p, {}, map[], map[], 0;
    }

    method Deposit(d: Deposit, rnd: nat) returns (ok: bool)
      modifies this
      ensures ok == PlaceDeposit(old(Model()), d, rnd).Done?
      ensures Model() == if ok then PlaceDeposit(old(Model()), d, rnd).h else old(Model())
    {
      if d.auction != auction { return false; }
      if rnd < params.depositRound || rnd > params.LastRound() { return false; }
      if d.depositId in depositIds { return false; }
      var b := Model().Bidder(d.bidder);
      if b.winnings == 0 {
        b := b.(winnings := d.winnings);
      } else if b.winnings != d.winnings {
        return false;
      }
      var amount := b.deposit + d.currency;
      if amount >= UINT64 { return false; }
      depositIds := depositIds + {d.depositId};
      bidders := bidders[d.bidder := b.(deposit := amount)];
      return true;
    }

    /** None stands for a panic. */
    method Bid(b: Bid, rnd: nat) returns (ok: Option<bool>)
      requires Validated(params)
      modifies this
      ensures ok == match PlaceBid(old(Model()), b, rnd) case Done(_) => Some(true) case Dropped => Some(false) case Panicked => None
      ensures Model() == if ok == Some(true) then PlaceBid(old(Model()), b, rnd).h else old(Model())
    {
      if b.auction != auction || rnd < params.firstRound || rnd > params.LastRound() { return Some(false); }
      var price := CurrentPrice(params, rnd);
      if price.None? { return None; }
      if b.maxPrice < price.value { return Some(false); }
      var least := b.maxPrice * params.minBidAlgos;
      if least >= UINT64 || b.currency < least { return Some(false); }
      var s := Model().Bidder(b.bidder);
      if b.currency > s.deposit { return Some(false); }
      var i := 0;
      while i < |s.placed|
        invariant 0 <= i <= |s.placed| && b.bidId !in s.placed[..i]
      {
        if s.placed[i] == b.bidId { return Some(false); }
        i := i + 1;
      }
      var total := totalCurrency + b.currency;
      if total >= UINT64 { return Some(false); }
      bids := bids[rnd := Model().BidsIn(rnd) + [RunningBid(b.bidder, b.currency, b.bidId, b.maxPrice)]];
      bidders := bidders[b.bidder := s.(placed := s.placed + [b.bidId], deposit := s.deposit - b.currency)];
      totalCurrency := total;
      return Some(true);
    }
  }
}
