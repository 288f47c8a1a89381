/**
 * The records of src/lib/types.ts. A market is owned by the price simulation
 * and only read here; a position refers to its market through `marketId` and
 * keeps a copy of the market's symbol.
 */
module Types {

  /** `'long' | 'short'`: a position's side takes exactly these two values. */
  datatype Side = Long | Short

  /**
   * A perpetual market. `basePrice` is the fixed anchor of the simulation and
   * `currentPrice` the moving quote; `volume24h` and `icon` are display text.
   */
  datatype Market = Market(
    id: string,
    symbol: string,
    name: string,
    basePrice: real,
    currentPrice: real,
    change24h: real,
    volume24h: string,
    icon: string)

  /** An open leveraged position; `timestamp` is milliseconds since the epoch. */
  datatype Position = Position(
    id: string,
    marketId: string,
    marketSymbol: string,
    side: Side,
    size: real,
    leverage: real,
    entryPrice: real,
    currentPrice: real,
    liquidationPrice: real,
    unrealizedPnl: real,
    unrealizedPnlPercent: real,
    timestamp: int)

  /** `ClosedPosition extends Position`: every position field plus four more. */
  datatype ClosedPosition = ClosedPosition(
    id: string,
    marketId: string,
    marketSymbol: string,
    side: Side,
    size: real,
    leverage: real,
    entryPrice: real,
    currentPrice: real,
    liquidationPrice: real,
    unrealizedPnl: real,
    unrealizedPnlPercent: real,
    timestamp: int,
    exitPrice: real,
    realizedPnl: real,
    realizedPnlPercent: real,
    closedAt: int)

  /** The object spread `{ ...position, exitPrice, realizedPnl, realizedPnlPercent, closedAt }`. */
  function Extend(p: Position, exitPrice: real, realizedPnl: real, realizedPnlPercent: real, closedAt: int): (c: ClosedPosition)
    ensures PositionOf(c) == p
    ensures c.exitPrice == exitPrice && c.realizedPnl == realizedPnl
    ensures c.realizedPnlPercent == realizedPnlPercent && c.closedAt == closedAt
  {
    ClosedPosition(p.id, p.marketId, p.marketSymbol, p.side, p.size, p.leverage,
      p.entryPrice, p.currentPrice, p.liquidationPrice, p.unrealizedPnl,
      p.unrealizedPnlPercent, p.timestamp,
      exitPrice, realizedPnl, realizedPnlPercent, closedAt)
  }

  /** The `Position` a closed record extends: the record minus its four closing fields. */
  function PositionOf(c: ClosedPosition): Position {
    Position(c.id, c.marketId, c.marketSymbol, c.side, c.size, c.leverage,
      c.entryPrice, c.currentPrice, c.liquidationPrice, c.unrealizedPnl,
      c.unrealizedPnlPercent, c.timestamp)
  }

  /** A closed record is exactly its position plus its four closing fields. */
  lemma ExtendPositionOf(c: ClosedPosition)
    ensures Extend(PositionOf(c), c.exitPrice, c.realizedPnl, c.realizedPnlPercent, c.closedAt) == c
  {
  }
}
