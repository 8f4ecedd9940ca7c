/** The portfolio service: queries over the tables, and repricing (app/services/portfolio_service.py). */
module PortfolioService {
  import opened Common
  import opened Ledger
  import opened Database

  /** Every total grows by the contribution of the next position. */
  lemma TotalsStep(rows: seq<PositionRow>, i: nat)
    requires i < |rows|
    ensures SumBy(rows[..i + 1], EquityContribution) == SumBy(rows[..i], EquityContribution) + EquityContribution(rows[i])
    ensures SumBy(rows[..i + 1], OpenUnrealized) == SumBy(rows[..i], OpenUnrealized) + OpenUnrealized(rows[i])
    ensures SumBy(rows[..i + 1], OpenMargin) == SumBy(rows[..i], OpenMargin) + OpenMargin(rows[i])
    ensures SumBy(rows[..i + 1], OpenGross) == SumBy(rows[..i], OpenGross) + OpenGross(rows[i])
    ensures SumBy(rows[..i + 1], OpenNet) == SumBy(rows[..i], OpenNet) + OpenNet(rows[i])
  {
    assert rows[..i + 1] == rows[..i] + [rows[i]];
    SumByAppend(rows[..i], rows[i], EquityContribution);
    SumByAppend(rows[..i], rows[i], OpenUnrealized);
    SumByAppend(rows[..i], rows[i], OpenMargin);
    SumByAppend(rows[..i], rows[i], OpenGross);
    SumByAppend(rows[..i], rows[i], OpenNet);
    hide *;
  }

  lemma NothingYet(rows: seq<PositionRow>)
    ensures SumBy(rows[..0], EquityContribution) == SumBy(rows[..0], OpenUnrealized) == SumBy(rows[..0], OpenMargin) == 0.0
    ensures SumBy(rows[..0], OpenGross) == SumBy(rows[..0], OpenNet) == 0.0
  {
  }

  lemma Contributions(p: PositionRow)
    ensures OpenGross(p) == Abs(OpenNotional(p))
    ensures p.status != Open ==> EquityContribution(p) == OpenNotional(p) == OpenNet(p) == 0.0
    ensures p.status == Open ==>
              EquityContribution(p) == if IsSpotLong(p) then OpenNotional(p) else p.collateral + p.unrealizedPnl
  {
  }

  /** FindOpen yields the first match. */
  lemma {:induction false} FirstMatch(rows: seq<PositionRow>, key: Key, i: nat)
    requires i < |rows| && rows[i].key == key && rows[i].status == Open
    requires forall k :: 0 <= k < i ==> !(rows[k].key == key && rows[k].status == Open)
    ensures FindOpen(rows, key) == Some(i)
  {
    var n := |rows| - 1;
    if i < n {
      FirstMatch(rows[..n], key, i);
    }
  }

  class Service {
    const db: Store

    constructor (db: Store)
      ensures this.db == db
    {
      this.db := db;
    }

    /** The place of the first open position of a key. */
    method GetPosition(key: Key) returns (id: Option<nat>)
      ensures id.Some? ==>
                && id.value < |db.positions|
                && db.positions[id.value].key == key && db.positions[id.value].status == Open
                && forall i :: 0 <= i < id.value ==> !(db.positions[i].key == key && db.positions[i].status == Open)
      ensures id.None? ==> forall p :: p in db.positions ==> !(p.key == key && p.status == Open)
      ensures id == FindOpen(db.Tables().positions, key)
    {
      hide RowsOf;
      ghost var rows := RowsOf(db.positions);
      var i := 0;
      while i < |db.positions|
        invariant 0 <= i <= |db.positions|
        invariant forall k :: 0 <= k < i ==> !(db.positions[k].key == key && db.positions[k].status == Open)
      {
        var position := db.positions[i];
        if position.key == key && position.status == Open {
          FirstMatch(rows, key, i);
          return Some(i);
        }
        i := i + 1;
      }
      id := None;
      assert FindOpen(rows, key).None?;
    }

    method TradeCashBalance() returns (balance: real)
      ensures balance == CashBalance(db.Tables())
    {
      balance := db.state.startingBalance + SumBy(db.trades, CashFlowOf);
    }

    /** Marks one open position at its latest known price. */
    method Mark(position: Position, latestPrices: map<string, real>) returns (notional: real, net: real, pnl: real)
      requires position.status == Open
      modifies position
      ensures position.Row() == Reprice(old(position.Row()), latestPrices)
      ensures notional == OpenNotional(position.Row()) && net == OpenNet(position.Row()) && pnl == position.unrealizedPnl
    {
      var lastPrice := LastPrice(position.Row(), latestPrices);
      var direction := Direction(position.side);
      notional := position.quantity * lastPrice;
      net := direction * notional;
      pnl := PnlOn(position.side, lastPrice, position.avgEntryPrice, position.quantity);
      position.currentPrice := lastPrice;
      position.unrealizedPnl := pnl;
    }

    /** Marks every open position, and adds up what they are worth. */
    method MarkOpenPositions(latestPrices: map<string, real>)
      returns (equityContribution: real, unrealizedPnl: real, marginUsed: real, grossExposure: real, netExposure: real)
      requires db.Valid()
      modifies db.positions
      ensures RowsOf(db.positions) == RepriceAll(old(RowsOf(db.positions)), latestPrices)
      ensures equityContribution == SumBy(RowsOf(db.positions), EquityContribution)
      ensures unrealizedPnl == SumBy(RowsOf(db.positions), OpenUnrealized)
      ensures marginUsed == SumBy(RowsOf(db.positions), OpenMargin)
      ensures grossExposure == SumBy(RowsOf(db.positions), OpenGross)
      ensures netExposure == SumBy(RowsOf(db.positions), OpenNet)
    {
      hide SumBy, UnrealizedAt, RowsOf, EquityContribution, OpenNotional, OpenNet, OpenGross;
      ghost var rows := RowsOf(db.positions);
      ghost var repriced := RepriceAll(rows, latestPrices);
      equityContribution, unrealizedPnl, marginUsed, grossExposure, netExposure := 0.0, 0.0, 0.0, 0.0, 0.0;
      var i := 0;
      NothingYet(repriced);
      while i < |db.positions|
        invariant 0 <= i <= |db.positions|
        invariant forall k :: 0 <= k < |db.positions| ==>
                    db.positions[k].Row() == if k < i then repriced[k] else rows[k]
        invariant equityContribution == SumBy(repriced[..i], EquityContribution)
        invariant unrealizedPnl == SumBy(repriced[..i], OpenUnrealized)
        invariant marginUsed == SumBy(repriced[..i], OpenMargin)
        invariant grossExposure == SumBy(repriced[..i], OpenGross)
        invariant netExposure == SumBy(repriced[..i], OpenNet)
      {
        var position := db.positions[i];
        TotalsStep(repriced, i);
        Contributions(repriced[i]);
        if position.status == Open {
          var notional, net, pnl := Mark(position, latestPrices);
          unrealizedPnl := unrealizedPnl + pnl;
          grossExposure := grossExposure + Abs(notional);
          netExposure := netExposure + net;
          if position.key.itype == Spot && position.side == Long {
            equityContribution := equityContribution + notional;
          } else {
            marginUsed := marginUsed + position.collateral;
            equityContribution := equityContribution + position.collateral + pnl;
          }
        }
        i := i + 1;
      }
      assert repriced[..i] == repriced == RowsOf(db.positions);
    }

    /** Marks the open positions at the latest prices, and overwrites the portfolio row with the totals. */
    method RecalculateState(latestPrices: map<string, real>)
      requires db.Valid()
      modifies db.state, db.positions
      ensures db.Tables() == Recalculate(old(db.Tables()), latestPrices)
    {
      hide SumBy, RowsOf, EquityContribution, OpenUnrealized, OpenMargin, OpenGross, OpenNet, RepriceAll, Reprice;
      var cashBalance := TradeCashBalance();
      var equityContribution, unrealizedPnl, marginUsed, grossExposure, netExposure := MarkOpenPositions(latestPrices);
      db.state.Overwrite(cashBalance, SumBy(db.trades, RealizedOf), unrealizedPnl, marginUsed, grossExposure, netExposure,
                         cashBalance + equityContribution);
    }
  }
}
