/** A descending-price auction: prices, deposits, bids and settlement. */
module Auction {
  import opened Options

  type Key = nat

  datatype Params = Params(
    depositRound: nat,
    firstRound: nat,
    numAlgos: nat,
    priceChunkRounds: nat,
    numChunks: nat,
    lastPrice: nat,
    maxPriceMultiple: nat,
    minBidAlgos: nat)
  {
    function LastRound(): int { firstRound + numChunks * priceChunkRounds - 1 }

    /** The rise of the price from the last chunk to the first. */
    function Rise(): nat
      requires maxPriceMultiple > 0
    {
      lastPrice * (maxPriceMultiple - 1)
    }
  }

  /** The checks made when an auction starts. */
  predicate Validated(p: Params) {
    && p.depositRound <= p.firstRound
    && p.numAlgos > 0 && p.priceChunkRounds > 0 && p.numChunks > 0 && p.maxPriceMultiple > 0 && p.minBidAlgos > 0
    && p.lastPrice * p.maxPriceMultiple < UINT64
    && p.numAlgos * (p.lastPrice * p.maxPriceMultiple) < UINT64
  }

  /** An auction with a price, whose last round fits. */
  predicate Proper(p: Params) {
    Validated(p) && p.lastPrice > 0 && p.LastRound() < UINT64
  }

  /** The whole rise times the number of steps fits into 64 bits. */
  predicate PricesFit(p: Params)
    requires p.maxPriceMultiple > 0
  {
    p.Rise() * (p.numChunks - 1) < UINT64
  }

  predicate InRounds(p: Params, rnd: nat) { p.firstRound <= rnd <= p.LastRound() }

  // ---------------------------------------------------------------- prices

  function ChunksToEnd(p: Params, rnd: nat): int
    requires p.priceChunkRounds > 0
  {
    p.numChunks - (rnd - p.firstRound) / p.priceChunkRounds - 1
  }

  /** The price steps between a round of the auction and its end. */
  function StepsLeft(p: Params, rnd: nat): (c: nat)
    requires Validated(p) && InRounds(p, rnd)
    ensures c < p.numChunks
  {
    ChunkRange(p, rnd);
    ChunksToEnd(p, rnd)
  }

  /** The price of a round; None stands for the panic on overflow. */
  function CurrentPrice(p: Params, rnd: nat): Option<nat>
    requires Validated(p) && InRounds(p, rnd)
  {
    PriceAt(p, p.Rise() * StepsLeft(p, rnd), StepsLeft(p, rnd))
  }

  function PriceAt(p: Params, w: nat, c: nat): Option<nat>
    requires c < p.numChunks && (w > 0 ==> c > 0)
  {
    if w >= UINT64 then None
    else if w == 0 then Some(p.lastPrice)
    else Some(p.lastPrice + w / (p.numChunks - 1))
  }

  lemma Quotient(a: nat, b: nat)
    requires b > 0
    ensures b * (a / b) <= a < b * (a / b) + b
  {
  }

  lemma Scale(a: nat, b: nat, k: nat)
    requires a <= b
    ensures a * k <= b * k
  {
    assert (b - a) * k >= 0;
  }

  /** A round of the auction lies in one of its chunks. */
  lemma ChunkRange(p: Params, rnd: nat)
    requires p.priceChunkRounds > 0 && InRounds(p, rnd)
    ensures 0 <= ChunksToEnd(p, rnd) <= p.numChunks - 1
  {
    var k := (rnd - p.firstRound) / p.priceChunkRounds;
    Quotient(rnd - p.firstRound, p.priceChunkRounds);
    if k >= p.numChunks { Scale(p.numChunks, k, p.priceChunkRounds); }
  }

  lemma RisePositive(p: Params, c: nat)
    requires p.maxPriceMultiple > 0
    ensures p.Rise() * c >= 0
    ensures p.Rise() * c > 0 ==> c > 0
  {
  }

  lemma Cancel(x: nat, y: nat, d: nat)
    requires x * d < y * d
    ensures x < y
  {
    if y <= x { Scale(y, x, d); }
  }

  lemma QuotientMonotone(a: nat, b: nat, d: nat)
    requires a <= b && d > 0
    ensures a / d <= b / d
  {
    Quotient(a, d);
    Quotient(b, d);
    assert (b / d + 1) * d == d * (b / d) + d;
    Cancel(a / d, b / d + 1, d);
  }

  lemma LaterChunk(p: Params, r: nat, s: nat)
    requires p.priceChunkRounds > 0 && InRounds(p, r) && InRounds(p, s) && r <= s
    ensures ChunksToEnd(p, s) <= ChunksToEnd(p, r)
  {
    QuotientMonotone(r - p.firstRound, s - p.firstRound, p.priceChunkRounds);
  }

  /** The price never rises, and lies between the last price and its multiple. */
  lemma PricesFall(p: Params, r: nat, s: nat)
    requires Validated(p) && InRounds(p, r) && InRounds(p, s) && r <= s && CurrentPrice(p, r).Some?
    ensures CurrentPrice(p, s).Some? && CurrentPrice(p, s).value <= CurrentPrice(p, r).value
  {
    LaterChunk(p, r, s);
    ChunkRange(p, r);
    ChunkRange(p, s);
    var c, d := ChunksToEnd(p, r), ChunksToEnd(p, s);
    Scale(d, c, p.Rise());
    RisePositive(p, c);
    RisePositive(p, d);
    if p.Rise() * d > 0 { QuotientMonotone(p.Rise() * d, p.Rise() * c, p.numChunks - 1); }
  }

  lemma PriceBounds(p: Params, r: nat)
    requires Validated(p) && InRounds(p, r) && CurrentPrice(p, r).Some?
    ensures p.lastPrice <= CurrentPrice(p, r).value <= p.lastPrice * p.maxPriceMultiple
    ensures p.numAlgos * CurrentPrice(p, r).value < UINT64
  {
    ChunkRange(p, r);
    var c := ChunksToEnd(p, r);
    RisePositive(p, c);
    var w := p.Rise() * c;
    var z := if w == 0 then 0 else w / (p.numChunks - 1);
    if w > 0 {
      Scale(c, p.numChunks - 1, p.Rise());
      QuotientMonotone(w, p.Rise() * (p.numChunks - 1), p.numChunks - 1);
      QuotientExact(p.Rise(), p.numChunks - 1);
    }
    assert z <= p.Rise();
    Multiple(p);
    Scale(CurrentPrice(p, r).value, p.lastPrice * p.maxPriceMultiple, p.numAlgos);
  }

  lemma Multiple(p: Params)
    requires p.maxPriceMultiple > 0
    ensures p.lastPrice + p.Rise() == p.lastPrice * p.maxPriceMultiple
  {
  }

  lemma QuotientExact(a: nat, b: nat)
    requires b > 0
    ensures (a * b) / b == a
  {
    Quotient(a * b, b);
    var k := (a * b) / b;
    assert (k + 1) * b == b * k + b && b * k == k * b;
    Cancel(a, k + 1, b);
    assert (a + 1) * b == a * b + b;
    Cancel(k, a + 1, b);
  }

  /** The last round sells at the last price, the first one at the full multiple of it. */
  lemma EndPrices(p: Params)
    requires Proper(p) && CurrentPrice(p, p.firstRound).Some?
    ensures InRounds(p, p.LastRound()) && CurrentPrice(p, p.LastRound()) == Some(p.lastPrice)
    ensures p.numChunks > 1 ==> CurrentPrice(p, p.firstRound) == Some(p.lastPrice * p.maxPriceMultiple)
  {
    var n := p.numChunks * p.priceChunkRounds;
    Scale(1, p.numChunks, p.priceChunkRounds);
    LastChunk(p);
    assert ChunksToEnd(p, p.LastRound()) == 0;
    assert ChunksToEnd(p, p.firstRound) == p.numChunks - 1;
    if p.numChunks > 1 && p.Rise() > 0 {
      Scale(1, p.Rise(), p.numChunks - 1);
      QuotientExact(p.Rise(), p.numChunks - 1);
    }
    Multiple(p);
  }

  lemma LastChunk(p: Params)
    requires p.priceChunkRounds > 0 && p.numChunks > 0
    ensures (p.numChunks * p.priceChunkRounds - 1) / p.priceChunkRounds == p.numChunks - 1
  {
    var d := p.priceChunkRounds;
    Scale(1, p.numChunks, d);
    var n := p.numChunks * d - 1;
    Quotient(n, d);
    var k := n / d;
    assert (k + 1) * d == d * k + d && (p.numChunks - 1) * d == p.numChunks * d - d;
    Cancel(p.numChunks - 1, k + 1, d);
    Cancel(k, p.numChunks, d);
  }

  /** No round of a validated auction panics, if and only if the whole rise times the number of
      steps fits into 64 bits. */
  lemma PanicExact(p: Params)
    requires Proper(p)
    ensures (forall r: nat :: InRounds(p, r) ==> CurrentPrice(p, r).Some?) <==> PricesFit(p)
  {
    Scale(1, p.numChunks, p.priceChunkRounds);
    assert InRounds(p, p.firstRound);
    assert ChunksToEnd(p, p.firstRound) == p.numChunks - 1;
    if CurrentPrice(p, p.firstRound).Some? {
      forall r: nat | InRounds(p, r) ensures CurrentPrice(p, r).Some? { PricesFall(p, p.firstRound, r); }
    }
  }

  /** The checks at the start do not exclude the panic. */
  lemma ValidatedCanPanic()
    ensures var p := Params(0, 0, 1, 1, 0x2_0000_0001, 0x1_0000_0000, 2, 1);
      Proper(p) && CurrentPrice(p, 0) == None
  {
    var p := Params(0, 0, 1, 1, 0x2_0000_0001, 0x1_0000_0000, 2, 1);
    assert p.Rise() == 0x1_0000_0000;
    assert ChunksToEnd(p, 0) == 0x2_0000_0000;
  }
}
