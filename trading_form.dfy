/**
 * The trade form: it validates the size typed in against the cash, shows the
 * notional value and an estimated liquidation price, and hands a valid order
 * to the ledger. The typed text is represented by its parsed value
 * (`parseFloat(size) || 0`), so an empty field is 0.
 */
module TradingForm {
  import opened Optional
  import opened Types
  import opened Margin

  /** The smallest order the form accepts, in USD. */
  const MinSize: real := 0.01
  /** The leverage slider's range and the value it starts and resets to. */
  const MinLeverage: int := 1
  const MaxLeverage: int := 20
  const DefaultLeverage: int := 10

  /** The form's fields: parsed size, slider leverage, selected side. */
  datatype FormState = FormState(size: real, leverage: int, side: Side)

  /** The arguments `onTrade` receives. */
  datatype Order = Order(side: Side, size: real, leverage: real)

  /** A fresh form: empty size, 10x, long. */
  function InitialForm(): (f: FormState)
    ensures MinLeverage <= f.leverage <= MaxLeverage && f.size == 0.0
  {
    FormState(0.0, DefaultLeverage, Long)
  }

  /** `canTrade`: the size is at least the minimum and within the cash. */
  predicate CanTrade(size: real, balance: real) {
    MinSize <= size && size <= balance
  }

  /** A tradeable size is strictly positive and never more than the cash. */
  lemma CanTradeBounds(size: real, balance: real)
    ensures CanTrade(size, balance) <==> 0.01 <= size <= balance
    ensures CanTrade(size, balance) ==> size > 0.0 && !(size > balance)
  {
  }

  /** The "Est. Liquidation" line: 0 while no size is entered. */
  function EstimatedLiquidation(size: real, price: real, leverage: int, side: Side): real
    requires leverage != 0
  {
    if size == 0.0 then 0.0 else LiquidationPrice(price, leverage as real, side)
  }

  /**
   * On the slider's range and for a non-negative price, a long's estimate is
   * at or below the price and a short's at or above; with no size both are 0.
   */
  lemma EstimateBrackets(size: real, price: real, leverage: int)
    requires MinLeverage <= leverage <= MaxLeverage && price >= 0.0
    ensures size == 0.0 ==> EstimatedLiquidation(size, price, leverage, Long) == 0.0 == EstimatedLiquidation(size, price, leverage, Short)
    ensures size != 0.0 ==>
              EstimatedLiquidation(size, price, leverage, Long) <= price <= EstimatedLiquidation(size, price, leverage, Short)
  {
    LiquidationBrackets(price, leverage);
  }

  /**
   * The submit button: an order goes out exactly when `canTrade` holds, with
   * the form's side, size and leverage, and the form is then reset to an
   * empty size at 10x; otherwise nothing is sent and the form is kept.
   */
  function Submit(form: FormState, balance: real): (r: (FormState, Option<Order>))
    ensures r.1.Some? <==> CanTrade(form.size, balance)
    ensures r.1.Some? ==> r.1.value == Order(form.side, form.size, form.leverage as real)
    ensures r.1.Some? ==> r.0 == FormState(0.0, DefaultLeverage, form.side)
    ensures r.1.None? ==> r.0 == form
    ensures MinLeverage <= form.leverage <= MaxLeverage ==> MinLeverage <= r.0.leverage <= MaxLeverage
  {
    if CanTrade(form.size, balance) then
      (FormState(0.0, DefaultLeverage, form.side), Some(Order(form.side, form.size, form.leverage as real)))
    else
      (form, None)
  }
}
