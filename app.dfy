/**
 * The simulated ledger of App: a cash balance, the open positions in the
 * order they were opened, and the closed positions most recent first. Open,
 * close and mark-to-market are its only transitions. The clock (`Date.now()`)
 * is a parameter, and the market snapshot is an input.
 */
module App {
  import opened Optional
  import opened Types
  import opened Margin
  import opened Portfolio
  import opened Pricing
  import opened TradingForm

  /** The starting cash of a fresh ledger. */
  const InitialBalance: real := 10000.0

  /** The three simulated markets the price feed starts from. */
  const InitialMarkets: seq<Market> := [
    Market("btc", "BTC-PERP", "Bitcoin Perpetual", 67500.0, 67500.0, 0.0, "$2.4B", "₿"),
    Market("eth", "ETH-PERP", "Ethereum Perpetual", 3200.0, 3200.0, 0.0, "$1.8B", "Ξ"),
    Market("sol", "SOL-PERP", "Solana Perpetual", 145.0, 145.0, 0.0, "$890M", "◎")
  ]

  /** What `handleTrade` reports: the trade was opened or refused for lack of cash. */
  datatype OpenOutcome = Opened | InsufficientBalance

  /** `markets.find((m) => m.id === selectedMarketId) || markets[0]`. */
  function SelectedMarket(markets: seq<Market>, selectedId: string): (r: Market)
    requires |markets| > 0
    ensures r in markets
    ensures (exists i :: 0 <= i < |markets| && markets[i].id == selectedId) ==> r.id == selectedId
    ensures (forall i :: 0 <= i < |markets| ==> markets[i].id != selectedId) ==> r == markets[0]
    ensures FindMarket(markets, selectedId).Some? ==> r == FindMarket(markets, selectedId).value
  {
    match FindMarket(markets, selectedId)
    case Some(m) => m
    case None => markets[0]
  }

  /** When several markets carry the selected id, the first of them is selected. */
  lemma {:induction false} SelectedMarketIsFirst(markets: seq<Market>, selectedId: string, i: nat)
    requires i < |markets| && markets[i].id == selectedId
    requires forall j :: 0 <= j < i ==> markets[j].id != selectedId
    ensures SelectedMarket(markets, selectedId) == markets[i]
  {
    FindMarketFirst(markets, selectedId, i);
  }

  /** Before any tick the selected market is BTC-PERP at 67500, and an unknown selection falls back to it. */
  lemma {:induction false} InitialSelection(selectedId: string)
    requires selectedId != "eth" && selectedId != "sol"
    ensures SelectedMarket(InitialMarkets, selectedId).symbol == "BTC-PERP"
    ensures SelectedMarket(InitialMarkets, selectedId).currentPrice == 67500.0
  {
  }

  /**
   * The position `handleTrade` creates: entered and marked at the market's
   * current price, with no P&L yet and the liquidation price fixed once.
   */
  function NewPosition(market: Market, side: Side, size: real, leverage: real, id: string, now: int): (p: Position)
    requires leverage != 0.0
    ensures p.id == id && p.timestamp == now && p.side == side && p.size == size && p.leverage == leverage
    ensures p.marketId == market.id && p.marketSymbol == market.symbol
    ensures p.entryPrice == market.currentPrice && p.currentPrice == market.currentPrice
    ensures p.unrealizedPnl == 0.0 && p.unrealizedPnlPercent == 0.0
    ensures p.liquidationPrice == LiquidationPrice(market.currentPrice, leverage, side)
  {
    Position(id, market.id, market.symbol, side, size, leverage,
      market.currentPrice, market.currentPrice,
      LiquidationPrice(market.currentPrice, leverage, side),
      0.0, 0.0, now)
  }

  /**
   * A fresh position is already at its mark: marking it against a snapshot in
   * which its market still has the entry price changes nothing.
   */
  lemma {:induction false} NewPositionIsMarked(market: Market, side: Side, size: real, leverage: real, id: string, now: int, markets: seq<Market>)
    requires leverage != 0.0 && market.currentPrice != 0.0 && size != 0.0
    requires FindMarket(markets, market.id).Some?
    requires FindMarket(markets, market.id).value.currentPrice == market.currentPrice
    ensures CanMark(NewPosition(market, side, size, leverage, id, now), markets)
    ensures Reprice(NewPosition(market, side, size, leverage, id, now), markets) == NewPosition(market, side, size, leverage, id, now)
  {
  }

  /** The history record of a close: the position frozen at its last mark. */
  function ToClosed(p: Position, closedAt: int): (c: ClosedPosition)
    ensures PositionOf(c) == p && c.closedAt == closedAt
    ensures c.exitPrice == p.currentPrice
    ensures c.realizedPnl == p.unrealizedPnl && c.realizedPnlPercent == p.unrealizedPnlPercent
  {
    Extend(p, p.currentPrice, p.unrealizedPnl, p.unrealizedPnlPercent, closedAt)
  }

  /** `posList.find((p) => p.id === id)`, given as the index of the first match. */
  function FindPosition(ps: seq<Position>, id: string): (r: Option<nat>)
    ensures r.None? <==> forall j :: 0 <= j < |ps| ==> ps[j].id != id
    ensures r.Some? ==> r.value < |ps| && ps[r.value].id == id
    ensures r.Some? ==> forall j :: 0 <= j < r.value ==> ps[j].id != id
  {
    if ps == [] then None
    else if ps[0].id == id then Some(0)
    else match FindPosition(ps[1..], id)
      case None => None
      case Some(k) => Some(k + 1)
  }

  /** `posList.filter((p) => p.id !== id)`: the positions with another id, in order. */
  function Without(ps: seq<Position>, id: string): (r: seq<Position>)
    ensures |r| <= |ps|
    ensures forall j :: 0 <= j < |r| ==> r[j].id != id
    ensures (forall j :: 0 <= j < |ps| ==> ps[j].id != id) ==> r == ps
  {
    if ps == [] then []
    else if ps[0].id == id then Without(ps[1..], id)
    else [ps[0]] + Without(ps[1..], id)
  }

  /** The filter keeps exactly the positions with another id: nothing is invented and none of them is lost. */
  lemma {:induction false} WithoutKeepsOthers(ps: seq<Position>, id: string)
    ensures forall q :: q in Without(ps, id) <==> q in ps && q.id != id
  {
    if ps != [] {
      WithoutKeepsOthers(ps[1..], id);
      assert forall q :: q in ps <==> q == ps[0] || q in ps[1..];
    }
  }

  /** No two open positions other than one share the id. */
  predicate AtMostOnce(ps: seq<Position>, id: string) {
    forall i, j :: 0 <= i < j < |ps| && ps[i].id == id ==> ps[j].id != id
  }

  /** Filtering distributes over concatenation. */
  lemma {:induction false} WithoutConcat(a: seq<Position>, b: seq<Position>, id: string)
    ensures Without(a + b, id) == Without(a, id) + Without(b, id)
  {
    if a == [] {
      assert a + b == b;
    } else {
      assert (a + b)[1..] == a[1..] + b;
      WithoutConcat(a[1..], b, id);
    }
  }

  /** When exactly one position carries the id, filtering it out removes just that index. */
  lemma {:induction false} WithoutSingle(ps: seq<Position>, id: string, i: nat)
    requires i < |ps| && ps[i].id == id
    requires forall j :: 0 <= j < |ps| && j != i ==> ps[j].id != id
    ensures Without(ps, id) == ps[..i] + ps[i + 1..]
  {
    var pre, x, post := ps[..i], ps[i], ps[i + 1..];
    assert ps == pre + ([x] + post);
    WithoutConcat(pre, [x] + post, id);
    WithoutConcat([x], post, id);
    assert Without([x], id) == [] by {
      assert [x][1..] == [];
    }
    assert forall j :: 0 <= j < |pre| ==> pre[j].id != id by {
      forall j | 0 <= j < |pre| ensures pre[j].id != id {
        assert pre[j] == ps[j];
      }
    }
    assert forall j :: 0 <= j < |post| ==> post[j].id != id by {
      forall j | 0 <= j < |post| ensures post[j].id != id {
        assert post[j] == ps[i + 1 + j];
      }
    }
  }

  /**
   * Opening moves `size` from cash into collateral and adds a position with no
   * P&L: the portfolio value is unchanged.
   */
  lemma {:induction false} OpenKeepsValue(balance: real, ps: seq<Position>, p: Position)
    requires p.unrealizedPnl == 0.0
    ensures TotalSize(ps + [p]) == TotalSize(ps) + p.size
    ensures TotalValue(balance - p.size, ps + [p]) == TotalValue(balance, ps)
  {
  }

  /**
   * Closing a position whose id is unique credits its collateral and P&L back
   * to cash and removes it from the totals: the portfolio value is unchanged.
   */
  lemma {:induction false} CloseKeepsValue(balance: real, ps: seq<Position>, id: string)
    requires FindPosition(ps, id).Some? && AtMostOnce(ps, id)
    ensures var p := ps[FindPosition(ps, id).value];
            && TotalSize(Without(ps, id)) == TotalSize(ps) - p.size
            && TotalValue(balance + p.size + p.unrealizedPnl, Without(ps, id)) == TotalValue(balance, ps)
  {
    var i := FindPosition(ps, id).value;
    WithoutSingle(ps, id, i);
    TotalsRemoveAt(ps, i);
  }

  /**
   * If two open positions share an id (two opens within the same
   * millisecond), closing that id removes both but credits only the first:
   * the second one's collateral and P&L vanish from the portfolio.
   */
  lemma {:induction false} DuplicateIdCloseLosesValue(balance: real, p: Position, q: Position)
    requires p.id == q.id
    ensures FindPosition([p, q], p.id) == Some(0)
    ensures Without([p, q], p.id) == []
    ensures TotalValue(balance + p.size + p.unrealizedPnl, Without([p, q], p.id))
            == TotalValue(balance, [p, q]) - q.size - q.unrealizedPnl
  {
    assert [p, q] == [p] + [q];
    TotalsConcat([p], [q]);
    TotalsSingle(p);
    TotalsSingle(q);
  }

  /**
   * Closing the position just opened, with no mark in between, finds it at the
   * end of the list, gives the open list back as it was, and returns the cash
   * to the balance exactly.
   */
  lemma {:induction false} OpenThenCloseRestores(balance: real, ps: seq<Position>, p: Position)
    requires forall j :: 0 <= j < |ps| ==> ps[j].id != p.id
    requires p.unrealizedPnl == 0.0
    ensures FindPosition(ps + [p], p.id) == Some(|ps|)
    ensures Without(ps + [p], p.id) == ps
    ensures TotalValue(balance - p.size, ps + [p]) == TotalValue(balance, ps)
  {
    WithoutSingle(ps + [p], p.id, |ps|);
    assert (ps + [p])[..|ps|] == ps;
    OpenKeepsValue(balance, ps, p);
  }

  /** The realized P&L of a history, the record sums of closed trades. */
  function TotalRealized(cs: seq<ClosedPosition>): real {
    if cs == [] then 0.0 else cs[0].realizedPnl + TotalRealized(cs[1..])
  }

  /**
   * An order the trade form submits is one `handleTrade` accepts, and the
   * position it opens at a non-zero market price can be marked to market.
   */
  lemma {:induction false} FormOrdersAreAccepted(form: FormState, balance: real, market: Market, markets: seq<Market>, id: string, now: int)
    requires MinLeverage <= form.leverage <= MaxLeverage && market.currentPrice != 0.0
    requires Submit(form, balance).1.Some?
    ensures var o := Submit(form, balance).1.value;
            && !(o.size > balance)
            && o.leverage != 0.0
            && CanMark(NewPosition(market, o.side, o.size, o.leverage, id, now), markets)
  {
  }

  /** The form's estimate is the liquidation price `handleTrade` gives the position, once a size is entered. */
  lemma {:induction false} EstimateMatchesOpen(size: real, market: Market, leverage: int, side: Side, id: string, now: int)
    requires leverage != 0 && size != 0.0
    ensures EstimatedLiquidation(size, market.currentPrice, leverage, side)
            == NewPosition(market, side, size, leverage as real, id, now).liquidationPrice
  {
  }

  /** The three state cells of App: cash, open positions, history. */
  class Ledger {
    var balance: real
    var positions: seq<Position>
    var closed: seq<ClosedPosition>

    /**
     * The accounting identity of the ledger: cash plus collateral in open
     * positions equals the starting cash plus all realized P&L.
     */
    ghost predicate Balanced()
      reads this
    {
      balance + TotalSize(positions) == InitialBalance + TotalRealized(closed)
    }

    /** The header's "Portfolio Value". */
    function Value(): real
      reads this
    {
      TotalValue(balance, positions)
    }

    constructor ()
      ensures balance == InitialBalance && positions == [] && closed == []
      ensures Balanced() && Value() == InitialBalance
    {
      balance := InitialBalance;
      positions := [];
      closed := [];
    }

    /**
     * `handleTrade`: refuse when `size` exceeds the cash, otherwise append the
     * new position and debit `size`. Only the cash is checked here; the size
     * and leverage limits live in the trade form.
     */
    method Open(market: Market, side: Side, size: real, leverage: real, id: string, now: int) returns (outcome: OpenOutcome)
      requires leverage != 0.0
      modifies this
      ensures outcome == (if size > old(balance) then InsufficientBalance else Opened)
      ensures outcome == InsufficientBalance ==>
                balance == old(balance) && positions == old(positions) && closed == old(closed)
      ensures outcome == Opened ==>
                && balance == old(balance) - size
                && positions == old(positions) + [NewPosition(market, side, size, leverage, id, now)]
                && closed == old(closed)
      ensures Value() == old(Value())
      ensures old(Balanced()) ==> Balanced()
    {
      if size > balance {
        return InsufficientBalance;
      }
      var p := NewPosition(market, side, size, leverage, id, now);
      OpenKeepsValue(balance, positions, p);
      positions := positions + [p];
      balance := balance - size;
      outcome := Opened;
    }

    /**
     * `handleClosePosition`: an unknown id changes nothing; otherwise the
     * first position with the id is recorded at the head of the history,
     * its collateral and P&L are credited, and the id is filtered out.
     */
    method Close(id: string, now: int)
      modifies this
      ensures FindPosition(old(positions), id).None? ==>
                balance == old(balance) && positions == old(positions) && closed == old(closed)
      ensures FindPosition(old(positions), id).Some? ==>
                var p := old(positions)[FindPosition(old(positions), id).value];
                && balance == old(balance) + p.size + p.unrealizedPnl
                && positions == Without(old(positions), id)
                && closed == [ToClosed(p, now)] + old(closed)
      ensures AtMostOnce(old(positions), id) ==> Value() == old(Value())
      ensures AtMostOnce(old(positions), id) && old(Balanced()) ==> Balanced()
    {
      match FindPosition(positions, id)
      case None =>
      case Some(i) =>
        var p := positions[i];
        if AtMostOnce(positions, id) {
          CloseKeepsValue(balance, positions, id);
        }
        var record := ToClosed(p, now);
        assert ([record] + closed)[1..] == closed;
        closed := [record] + closed;
        balance := balance + p.size + p.unrealizedPnl;
        positions := Without(positions, id);
    }

    /** The mark-to-market effect: every open position re-priced against the snapshot. */
    method MarkToMarket(markets: seq<Market>)
      requires AllCanMark(positions, markets)
      modifies this
      ensures positions == MarkAll(old(positions), markets)
      ensures balance == old(balance) && closed == old(closed)
      ensures TotalSize(positions) == old(TotalSize(positions))
      ensures old(Balanced()) ==> Balanced()
    {
      MarkAllKeepsTerms(positions, markets);
      TotalSizeBySizes(positions, MarkAll(positions, markets));
      positions := MarkAll(positions, markets);
    }
  }

  /** A client of the ledger: an open followed at once by a close of the same fresh id leaves the cash and open list as they were. */
  method OpenThenClose(ledger: Ledger, market: Market, side: Side, size: real, leverage: real, id: string, openedAt: int, closedAt: int)
    requires leverage != 0.0 && size <= ledger.balance
    requires forall j :: 0 <= j < |ledger.positions| ==> ledger.positions[j].id != id
    modifies ledger
    ensures ledger.balance == old(ledger.balance) && ledger.positions == old(ledger.positions)
    ensures ledger.closed == [ToClosed(NewPosition(market, side, size, leverage, id, openedAt), closedAt)] + old(ledger.closed)
    ensures ledger.closed[0].realizedPnl == 0.0
  {
    var outcome := ledger.Open(market, side, size, leverage, id, openedAt);
    OpenThenCloseRestores(old(ledger.balance), old(ledger.positions), NewPosition(market, side, size, leverage, id, openedAt));
    ledger.Close(id, closedAt);
  }
}
