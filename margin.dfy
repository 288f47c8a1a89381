/**
 * The margin arithmetic: the liquidation price fixed at open time, the
 * unrealized P&L of a mark, its percentage of the collateral, and the
 * notional value the trade form shows. JavaScript numbers are idealised as
 * `real`, so every identity below holds exactly.
 */
module Margin {
  import opened Types

  /** The fixed maintenance margin of both the ledger and the trade form. */
  const MaintenanceMargin: real := 0.05

  /** `side === 'long' ? 1 : -1`. */
  function Direction(side: Side): real {
    if side == Long then 1.0 else -1.0
  }

  /** The price at which the position's equity has shrunk to the maintenance margin of its notional. */
  function LiquidationPrice(price: real, leverage: real, side: Side): real
    requires leverage != 0.0
  {
    if side == Long then price * (1.0 - 1.0 / leverage + MaintenanceMargin)
    else price * (1.0 + 1.0 / leverage - MaintenanceMargin)
  }

  /** The leveraged profit or loss of `size` collateral moved from `entry` to `current`. */
  function UnrealizedPnl(entry: real, current: real, size: real, leverage: real, side: Side): real
    requires entry != 0.0
  {
    ((current - entry) / entry) * size * leverage * Direction(side)
  }

  /** P&L as a percentage of the collateral. */
  function PnlPercent(pnl: real, size: real): real
    requires size != 0.0
  {
    (pnl / size) * 100.0
  }

  /** The notional exposure `size * leverage` shown as "Position Value". */
  function PositionValue(size: real, leverage: real): real {
    size * leverage
  }

  /** Entry 100 at 10x liquidates at 95 long and at 105 short. */
  lemma LiquidationExample()
    ensures LiquidationPrice(100.0, 10.0, Long) == 95.0
    ensures LiquidationPrice(100.0, 10.0, Short) == 105.0
  {
  }

  /** Long from 100 to 110 with 1000 collateral at 5x earns 500, a 50% return. */
  lemma PnlExample()
    ensures UnrealizedPnl(100.0, 110.0, 1000.0, 5.0, Long) == 500.0
    ensures PnlPercent(UnrealizedPnl(100.0, 110.0, 1000.0, 5.0, Long), 1000.0) == 50.0
  {
  }

  /**
   * With positive entry price, size and leverage, a long gains exactly when
   * the price has risen and loses exactly when it has fallen; a short the
   * reverse.
   */
  lemma PnlSign(entry: real, current: real, size: real, leverage: real)
    requires entry > 0.0 && size > 0.0 && leverage > 0.0
    ensures UnrealizedPnl(entry, current, size, leverage, Long) > 0.0 <==> current > entry
    ensures UnrealizedPnl(entry, current, size, leverage, Long) < 0.0 <==> current < entry
    ensures UnrealizedPnl(entry, current, size, leverage, Short) > 0.0 <==> current < entry
    ensures UnrealizedPnl(entry, current, size, leverage, Short) < 0.0 <==> current > entry
  {
    var ret := (current - entry) / entry;
    assert ret > 0.0 <==> current > entry by {
      assert ret * entry == current - entry;
    }
    assert ret < 0.0 <==> current < entry by {
      assert ret * entry == current - entry;
    }
    var k := size * leverage;
    assert k > 0.0;
    assert UnrealizedPnl(entry, current, size, leverage, Long) == ret * k;
    assert UnrealizedPnl(entry, current, size, leverage, Short) == -(ret * k);
    assert ret > 0.0 ==> ret * k > 0.0;
    assert ret < 0.0 ==> ret * k < 0.0;
  }

  /** The P&L scales linearly with the collateral: two positions' P&L add up to that of their combined size. */
  lemma PnlAdditiveInSize(entry: real, current: real, size1: real, size2: real, leverage: real, side: Side)
    requires entry != 0.0
    ensures UnrealizedPnl(entry, current, size1 + size2, leverage, side)
            == UnrealizedPnl(entry, current, size1, leverage, side) + UnrealizedPnl(entry, current, size2, leverage, side)
  {
  }

  /** A long and a short of the same trade have opposite P&L; neither moves at the entry price. */
  lemma PnlSidesOpposite(entry: real, current: real, size: real, leverage: real)
    requires entry != 0.0
    ensures UnrealizedPnl(entry, current, size, leverage, Short) == -UnrealizedPnl(entry, current, size, leverage, Long)
    ensures UnrealizedPnl(entry, entry, size, leverage, Long) == 0.0
    ensures UnrealizedPnl(entry, entry, size, leverage, Short) == 0.0
  {
  }

  /** The percentage does not depend on the size: it is the leveraged price return. */
  lemma PnlPercentIsLeveragedReturn(entry: real, current: real, size: real, leverage: real, side: Side)
    requires entry != 0.0 && size != 0.0
    ensures PnlPercent(UnrealizedPnl(entry, current, size, leverage, side), size)
            == ((current - entry) / entry) * leverage * Direction(side) * 100.0
  {
  }

  /**
   * At the liquidation price the position's equity (collateral plus P&L) is
   * exactly the maintenance margin of its notional value, on either side.
   */
  lemma EquityAtLiquidation(entry: real, size: real, leverage: real, side: Side)
    requires entry != 0.0 && leverage != 0.0
    ensures size + UnrealizedPnl(entry, LiquidationPrice(entry, leverage, side), size, leverage, side)
            == MaintenanceMargin * PositionValue(size, leverage)
  {
  }

  /**
   * With leverage on the slider's range 1..20 and a non-negative price, the long
   * liquidation price is at or below the price and the short one at or above;
   * they meet the price exactly at 20x and are strictly apart below it.
   */
  lemma LiquidationBrackets(price: real, leverage: int)
    requires 1 <= leverage <= 20 && price >= 0.0
    ensures LiquidationPrice(price, leverage as real, Long) <= price <= LiquidationPrice(price, leverage as real, Short)
    ensures leverage == 20 ==> LiquidationPrice(price, leverage as real, Long) == price == LiquidationPrice(price, leverage as real, Short)
    ensures leverage < 20 && price > 0.0 ==>
              LiquidationPrice(price, leverage as real, Long) < price < LiquidationPrice(price, leverage as real, Short)
  {
  }
}
