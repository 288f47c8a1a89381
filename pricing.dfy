/**
 * Mark-to-market: the effect App runs whenever a new market snapshot arrives.
 * Each open position is looked up by `marketId` in the snapshot and re-priced;
 * a position whose market is missing is kept as it is.
 */
module Pricing {
  import opened Optional
  import opened Types
  import opened Margin

  /** `markets.find((m) => m.id === id)`: the first market with that id, if any. */
  function FindMarket(markets: seq<Market>, id: string): (r: Option<Market>)
    ensures r.None? <==> forall i :: 0 <= i < |markets| ==> markets[i].id != id
    ensures r.Some? ==> r.value in markets && r.value.id == id
  {
    if markets == [] then None
    else if markets[0].id == id then Some(markets[0])
    else FindMarket(markets[1..], id)
  }

  /** The market found is the one at the first index carrying the id. */
  lemma {:induction false} FindMarketFirst(markets: seq<Market>, id: string, i: nat)
    requires i < |markets| && markets[i].id == id
    requires forall j :: 0 <= j < i ==> markets[j].id != id
    ensures FindMarket(markets, id) == Some(markets[i])
  {
    if i > 0 {
      FindMarketFirst(markets[1..], id, i - 1);
    }
  }

  /** The divisions of a re-pricing are defined: a position that has a market has non-zero entry price and size. */
  predicate CanMark(p: Position, markets: seq<Market>) {
    FindMarket(markets, p.marketId).Some? ==> p.entryPrice != 0.0 && p.size != 0.0
  }

  /**
   * One position marked against a snapshot: only `currentPrice`,
   * `unrealizedPnl` and `unrealizedPnlPercent` change, to the market's price
   * and the P&L of that price; without a market the position is unchanged.
   */
  function Reprice(p: Position, markets: seq<Market>): (r: Position)
    requires CanMark(p, markets)
    ensures r == p.(currentPrice := r.currentPrice, unrealizedPnl := r.unrealizedPnl,
                    unrealizedPnlPercent := r.unrealizedPnlPercent)
    ensures FindMarket(markets, p.marketId).None? ==> r == p
    ensures FindMarket(markets, p.marketId).Some? ==>
              && r.currentPrice == FindMarket(markets, p.marketId).value.currentPrice
              && r.unrealizedPnl == UnrealizedPnl(p.entryPrice, r.currentPrice, p.size, p.leverage, p.side)
              && r.unrealizedPnlPercent == PnlPercent(r.unrealizedPnl, p.size)
  {
    match FindMarket(markets, p.marketId)
    case None => p
    case Some(market) =>
      var pnl := UnrealizedPnl(p.entryPrice, market.currentPrice, p.size, p.leverage, p.side);
      p.(currentPrice := market.currentPrice, unrealizedPnl := pnl,
         unrealizedPnlPercent := PnlPercent(pnl, p.size))
  }

  /** Re-pricing twice against the same snapshot is re-pricing once. */
  lemma RepriceIdempotent(p: Position, markets: seq<Market>)
    requires CanMark(p, markets)
    ensures CanMark(Reprice(p, markets), markets)
    ensures Reprice(Reprice(p, markets), markets) == Reprice(p, markets)
  {
  }

  /** A snapshot's markets agree with another's in id and current price, index by index. */
  predicate SameQuotes(ms: seq<Market>, ms': seq<Market>) {
    |ms| == |ms'| && forall i :: 0 <= i < |ms| ==> ms[i].id == ms'[i].id && ms[i].currentPrice == ms'[i].currentPrice
  }

  lemma {:induction false} FindMarketSameQuotes(ms: seq<Market>, ms': seq<Market>, id: string)
    requires SameQuotes(ms, ms')
    ensures FindMarket(ms, id).Some? <==> FindMarket(ms', id).Some?
    ensures FindMarket(ms, id).Some? ==> FindMarket(ms, id).value.currentPrice == FindMarket(ms', id).value.currentPrice
  {
    if ms != [] && ms[0].id != id {
      FindMarketSameQuotes(ms[1..], ms'[1..], id);
    }
  }

  /**
   * Marking reads a market only through its id and its current price: the
   * fixed `basePrice`, the `change24h` figure and the display fields do not
   * affect the result.
   */
  lemma RepriceSeesOnlyQuotes(p: Position, ms: seq<Market>, ms': seq<Market>)
    requires SameQuotes(ms, ms') && CanMark(p, ms)
    ensures CanMark(p, ms')
    ensures Reprice(p, ms) == Reprice(p, ms')
  {
    FindMarketSameQuotes(ms, ms', p.marketId);
  }

  /** Every position of the list can be marked against the snapshot. */
  predicate AllCanMark(ps: seq<Position>, markets: seq<Market>) {
    forall i :: 0 <= i < |ps| ==> CanMark(ps[i], markets)
  }

  /** `positions.map(...)`: the list re-priced position by position, same length and order. */
  function MarkAll(ps: seq<Position>, markets: seq<Market>): (r: seq<Position>)
    requires AllCanMark(ps, markets)
    ensures |r| == |ps|
    ensures forall i :: 0 <= i < |ps| ==> r[i] == Reprice(ps[i], markets)
  {
    if ps == [] then [] else [Reprice(ps[0], markets)] + MarkAll(ps[1..], markets)
  }

  /** Marking keeps every position's id, market, side, size, leverage, entry and liquidation price. */
  lemma MarkAllKeepsTerms(ps: seq<Position>, markets: seq<Market>)
    requires AllCanMark(ps, markets)
    ensures AllCanMark(MarkAll(ps, markets), markets)
    ensures forall i :: 0 <= i < |ps| ==>
              var q := MarkAll(ps, markets)[i];
              q.id == ps[i].id && q.marketId == ps[i].marketId && q.side == ps[i].side
              && q.size == ps[i].size && q.leverage == ps[i].leverage
              && q.entryPrice == ps[i].entryPrice && q.liquidationPrice == ps[i].liquidationPrice
              && q.timestamp == ps[i].timestamp
  {
  }

  /** Mark-to-market is idempotent: a second pass with the same snapshot changes nothing. */
  lemma MarkAllIdempotent(ps: seq<Position>, markets: seq<Market>)
    requires AllCanMark(ps, markets)
    ensures AllCanMark(MarkAll(ps, markets), markets)
    ensures MarkAll(MarkAll(ps, markets), markets) == MarkAll(ps, markets)
  {
  }
}
