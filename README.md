# Leveraged perpetual ledger

A Dafny model of the demo perpetual-futures exchange's trading core. The
ledger holds a cash balance (10000 at start), the open positions in the order
they were opened, and the closed positions most recent first. Three
transitions change it: opening a position (`handleTrade`), closing one
(`handleClosePosition`) and marking every open position to the latest market
snapshot. The portfolio totals are sums over the open positions. The trade
form validates the order size against the cash, shows the notional value and
an estimated liquidation price, and resets itself after submitting.

Modules, one per source file or concern:

- `Types` (`types.dfy`): the `Market`, `Position` and `ClosedPosition` records and the two-valued side.
- `Margin` (`margin.dfy`): liquidation price, unrealized P&L, P&L percent, position value.
- `Portfolio` (`portfolio.dfy`): total unrealized P&L and total value.
- `Pricing` (`pricing.dfy`): market lookup and the per-position re-pricing of the mark-to-market effect.
- `App` (`app.dfy`): the `Ledger` class with `Open`, `Close` and `MarkToMarket`, and the accounting lemmas.
- `TradingForm` (`trading_form.dfy`): `canTrade`, the liquidation estimate and the submit/reset step.
- `Optional` (`optional.dfy`): the usual `Option` type.

JavaScript numbers are modelled as `real`, so the accounting identities hold
exactly. The ledger keeps a ghost accounting identity, `Ledger.Balanced`:
cash plus the collateral of open positions equals 10000 plus all realized
P&L. `Open` and `MarkToMarket` always preserve it, and `Close` preserves it
whenever the closed id occurs at most once.

The form and the ledger check different things, as in the source:
`Ledger.Open` refuses only `size > balance`. Size positivity and the leverage
range are checked only by the form (`CanTrade`, the slider bounds).
`App.FormOrdersAreAccepted` connects the two. The liquidation price is
computed but never enforced, and the balance may go negative after a large
loss. The model does not add automatic liquidation.

## Model

| member | source | states |
|---|---|---|
| Types.Extend | src/lib/types.ts:27-32 | a closed record carries the position unchanged (dropping the four closing fields gives it back) plus the four closing fields given |
| Types.ExtendPositionOf | src/lib/types.ts:27-32 | every closed record is its position plus its four closing fields, so the two views round-trip |
| Margin.LiquidationExample | src/App.tsx:92-96 | entry 100 at 10x liquidates at 95 long and 105 short |
| Margin.PnlExample | src/App.tsx:70-74 | long from 100 to 110 with size 1000 at 5x gives P&L 500 and 50 percent |
| Margin.PnlSign | src/App.tsx:71-73 | with positive entry, size and leverage, a long's P&L is positive exactly when the price rose and negative exactly when it fell; a short's the reverse |
| Margin.PnlAdditiveInSize | src/App.tsx:71-73 | P&L is linear in the size: the P&L of two sizes adds up to the P&L of their sum |
| Margin.PnlSidesOpposite | src/App.tsx:72-73 | a short's P&L is the negation of the long's, and both are 0 at the entry price |
| Margin.PnlPercentIsLeveragedReturn | src/App.tsx:73-74 | the P&L percent is the leveraged price return times 100, whatever the size |
| Margin.EquityAtLiquidation | src/App.tsx:92-96 | at the liquidation price, collateral plus P&L equals 0.05 times the position value, for both sides |
| Margin.LiquidationBrackets | src/components/TradingPanel.tsx:36-44 | for leverage 1..20 and price >= 0, long liquidation <= price <= short liquidation; equal at 20x, strict below 20x when price > 0 |
| Portfolio.TotalsConcat | src/App.tsx:146-147 | both reduce sums split over a concatenation |
| Portfolio.TotalsSingle | src/App.tsx:146-147 | the totals of a one-position list are that position's size and P&L |
| Portfolio.TotalsRemoveAt | src/App.tsx:146-147 | removing one position lowers total size and total unrealized P&L by exactly its size and its P&L |
| Portfolio.TotalSizeBySizes | src/App.tsx:147 | lists whose sizes agree index by index have the same total size |
| Pricing.FindMarket | src/App.tsx:67 | the result is a market of the snapshot carrying the id, and there is none exactly when no market has the id |
| Pricing.FindMarketFirst | src/App.tsx:67 | the market found is the one at the first index with the id |
| Pricing.Reprice | src/App.tsx:66-82 | only currentPrice, unrealizedPnl and unrealizedPnlPercent change, to the market's price and its P&L; a position without a market is returned unchanged |
| Pricing.RepriceIdempotent | src/App.tsx:70-81 | re-pricing twice against the same snapshot equals re-pricing once |
| Pricing.FindMarketSameQuotes | src/App.tsx:67 | lookups in two snapshots that agree on ids and current prices find a market together, at the same price |
| Pricing.RepriceSeesOnlyQuotes | src/lib/types.ts:1-10 | re-pricing depends only on each market's id and currentPrice, not on basePrice, change24h or display fields |
| Pricing.MarkAll | src/App.tsx:64-82 | the marked list has the same length and order, each element the re-priced original |
| Pricing.MarkAllKeepsTerms | src/App.tsx:76-81 | marking keeps every position's id, market, side, size, leverage, entry price, liquidation price and timestamp |
| Pricing.MarkAllIdempotent | src/App.tsx:63-84 | applying mark-to-market twice with the same snapshot equals applying it once |
| App.SelectedMarket | src/App.tsx:57 | the selected market belongs to the snapshot; it is the market the id lookup finds when there is one, and otherwise the first market |
| App.SelectedMarketIsFirst | src/App.tsx:57 | when several markets carry the selected id, the one at the first such index is selected |
| App.InitialSelection | src/App.tsx:15-57 | before any tick, selecting btc or an unknown id gives BTC-PERP at 67500 |
| App.NewPosition | src/App.tsx:92-111 | the new position copies the market's id and symbol, enters and is marked at the market price, has zero P&L and the liquidation price of that price |
| App.NewPositionIsMarked | src/App.tsx:98-111 | a fresh position is already at its mark: re-pricing it at an unchanged market price leaves it as it is |
| App.ToClosed | src/App.tsx:127-133 | the history record copies every position field, with exit price = current price, realized P&L and percent = unrealized ones, closedAt = the clock |
| App.FindPosition | src/App.tsx:124 | returns the index of the first position with the id, and none exactly when no position has it |
| App.Without | src/App.tsx:142 | the filtered list is no longer than the original, holds no position with the id, and is the list itself when no position has the id |
| App.WithoutKeepsOthers | src/App.tsx:142 | a position is in the filtered list exactly when it is in the original and has another id |
| App.WithoutConcat | src/App.tsx:142 | filtering a concatenation is the concatenation of the filtered parts |
| App.WithoutSingle | src/App.tsx:142 | when exactly one position has the id, the filter removes just that index and keeps the order |
| App.OpenKeepsValue | src/App.tsx:113-114 | debiting size and appending a zero-P&L position of that size leaves total value unchanged |
| App.CloseKeepsValue | src/App.tsx:135-142 | crediting size plus P&L and filtering out a unique id leaves total value unchanged |
| App.DuplicateIdCloseLosesValue | src/App.tsx:124-142 | with two positions sharing an id, close removes both but credits only the first, losing the second's size and P&L from the total |
| App.OpenThenCloseRestores | src/App.tsx:113-142 | closing the fresh id just appended finds it last, gives the open list back and the value is as before |
| App.FormOrdersAreAccepted | src/App.tsx:86-90 | an order the form submits is never refused for cash, has non-zero leverage and, at a non-zero price, opens a position that can be marked |
| App.EstimateMatchesOpen | src/components/TradingPanel.tsx:36-44 | with a size entered, the form's estimate equals the liquidation price the opened position gets |
| App.Ledger.constructor | src/App.tsx:48-53 | a fresh ledger has balance 10000 and empty open and closed lists, and is balanced |
| App.Ledger.Open | src/App.tsx:86-119 | size > balance is refused with nothing changed; otherwise exactly size is debited, one new position appended and history untouched; value and the accounting identity are kept |
| App.Ledger.Close | src/App.tsx:121-144 | an unknown id changes nothing; otherwise the record is prepended, size plus P&L credited and the id filtered out; value and accounting identity are kept when the id is unique |
| App.Ledger.MarkToMarket | src/App.tsx:63-84 | positions become the marked list; balance and history are untouched; total size and the accounting identity are kept |
| App.OpenThenClose | src/App.tsx:86-144 | an open followed by a close of the same fresh id restores balance and open list and records a zero realized P&L |
| TradingForm.InitialForm | src/components/TradingPanel.tsx:19-21 | the form starts empty at a leverage within the slider range |
| TradingForm.CanTradeBounds | src/components/TradingPanel.tsx:26 | canTrade holds iff 0.01 <= size <= balance, so a tradeable size is positive and never exceeds the cash |
| TradingForm.EstimateBrackets | src/components/TradingPanel.tsx:36-44 | the estimate is 0 with no size; otherwise long estimate <= price <= short estimate on the slider range |
| TradingForm.Submit | src/components/TradingPanel.tsx:28-34 | an order is sent iff canTrade holds, with the form's side, size and leverage; then the size is cleared and leverage reset to 10; otherwise the form is kept |

## Left out

- The price simulation hook is not part of this model: market snapshots are inputs, and the random walk and `change24h` update are not modelled.
- Persistence through the key-value hook and its `?? INITIAL_BALANCE` / `?? []` fallbacks are not modelled; a ledger starts at 10000 with empty lists.
- Toast notifications and all rendering are not modelled; the refusal of an open is returned as `InsufficientBalance`.
- `Date.now()` is a parameter: the position id and the timestamps are given by the caller. The source reads the clock twice when opening, and the model takes the id and the timestamp as separate inputs.
- React scheduling is not modelled: the state setters nested inside the close updater, the deferred application of updaters, and the double invocation of updaters in development mode.
- Floating point is idealised as `real`: no rounding, and no `Infinity` or `NaN`.
- App.Ledger.Open: requires `leverage != 0`. In the source a zero leverage makes `1 / leverage` infinite, so the liquidation price is infinite at a non-zero market price and `NaN` at a zero one; the slider never produces a zero leverage.
- App.Ledger.MarkToMarket: requires a non-zero entry price and size for every position whose market is in the snapshot, because the P&L divides by both. In the source a zero entry price makes the P&L and its percent infinite when the market price differs from it and `NaN` when both are 0; a zero size gives a P&L of 0 and a `NaN` percent. `App.FormOrdersAreAccepted` shows that every position opened through the form at a non-zero price meets this.
- App.Ledger.Close: keeps total value and the accounting identity only when the closed id occurs at most once. Ids are clock readings, so two opens in the same millisecond would share one; `App.DuplicateIdCloseLosesValue` shows what then happens.
- App.SelectedMarket: requires a non-empty market snapshot. With no markets, `markets[0]` is undefined in the source and opening a trade throws on reading its price; the model does not represent that failure.
- The form's text field is represented by its parsed value (`parseFloat(size) || 0`); parsing itself is not modelled.
- The on-chain trading panel, the games tabs, the video scripts, theming, visual effects and the presentational cards and dialogs are outside this model.
