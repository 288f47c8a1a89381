/**
 * The portfolio totals App derives from the open positions on every render.
 * Both sums are left folds, as `Array.prototype.reduce` with seed 0 is.
 */
module Portfolio {
  import opened Types

  /** `positions.reduce((sum, pos) => sum + pos.unrealizedPnl, 0)`. */
  function TotalUnrealized(ps: seq<Position>): real {
    if ps == [] then 0.0 else TotalUnrealized(ps[..|ps| - 1]) + ps[|ps| - 1].unrealizedPnl
  }

  /** `positions.reduce((sum, pos) => sum + pos.size, 0)`: the collateral held in open positions. */
  function TotalSize(ps: seq<Position>): real {
    if ps == [] then 0.0 else TotalSize(ps[..|ps| - 1]) + ps[|ps| - 1].size
  }

  /** Portfolio value: cash plus collateral plus unrealized P&L. */
  function TotalValue(balance: real, ps: seq<Position>): real {
    balance + TotalSize(ps) + TotalUnrealized(ps)
  }

  /** Both totals split over a concatenation, so the fold order does not matter. */
  lemma {:induction false} TotalsConcat(a: seq<Position>, b: seq<Position>)
    ensures TotalSize(a + b) == TotalSize(a) + TotalSize(b)
    ensures TotalUnrealized(a + b) == TotalUnrealized(a) + TotalUnrealized(b)
  {
    if b == [] {
      assert a + b == a;
    } else {
      var b' := b[..|b| - 1];
      assert (a + b)[..|a + b| - 1] == a + b';
      TotalsConcat(a, b');
    }
  }

  /** Removing the element at index `i` takes exactly its size and its P&L out of the totals. */
  lemma {:induction false} TotalsRemoveAt(ps: seq<Position>, i: nat)
    requires i < |ps|
    ensures TotalSize(ps[..i] + ps[i + 1..]) == TotalSize(ps) - ps[i].size
    ensures TotalUnrealized(ps[..i] + ps[i + 1..]) == TotalUnrealized(ps) - ps[i].unrealizedPnl
  {
    var pre, x, post := ps[..i], ps[i], ps[i + 1..];
    assert ps == (pre + [x]) + post;
    TotalsConcat(pre + [x], post);
    TotalsConcat(pre, [x]);
    TotalsConcat(pre, post);
    TotalsSingle(x);
  }

  /** A one-position list totals to that position's size and P&L. */
  lemma TotalsSingle(x: Position)
    ensures TotalSize([x]) == x.size && TotalUnrealized([x]) == x.unrealizedPnl
  {
  }

  /** Two position lists whose sizes agree index by index hold the same collateral. */
  lemma {:induction false} TotalSizeBySizes(a: seq<Position>, b: seq<Position>)
    requires |a| == |b|
    requires forall i :: 0 <= i < |a| ==> a[i].size == b[i].size
    ensures TotalSize(a) == TotalSize(b)
  {
    if a != [] {
      TotalSizeBySizes(a[..|a| - 1], b[..|b| - 1]);
    }
  }
}
