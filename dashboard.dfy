/**
 * The dashboard page (`src/pages/Dashboard.tsx`): the demo portfolio, the map
 * of live price updates it keeps one entry per symbol, the best performer, the
 * figures each position row shows, the percent label and the price
 * subscription. Currency and number formatting are parameters.
 */
module Dashboard {
  import opened Wrappers
  import opened Types
  import opened WebSocket

  /** The four demo positions, in their order. */
  const Positions: seq<Position> := [
    Position("AAPL", 50.0, 175.20, 178.45, 8922.50, 162.50, 1.85),
    Position("GOOGL", 25.0, 2680.10, 2720.30, 68007.50, 1005.00, 1.50),
    Position("MSFT", 75.0, 320.45, 325.80, 24435.00, 401.25, 1.67),
    Position("TSLA", 30.0, 245.60, 251.20, 7536.00, 168.00, 2.28)]

  type Updates = map<string, PriceUpdate>

  /** The state update the price listener performs: `{ ...prev, [u.symbol]: u }`. */
  function MergeUpdate(prev: Updates, u: PriceUpdate): (r: Updates)
    ensures u.symbol in r && r[u.symbol] == u
    ensures forall s :: s != u.symbol ==> (s in r <==> s in prev)
    ensures forall s :: s != u.symbol && s in prev ==> r[s] == prev[s]
  {
    prev[u.symbol := u]
  }

  /** The updates of a stream merged in arrival order. */
  function MergeAll(prev: Updates, us: seq<PriceUpdate>): (r: Updates)
    ensures forall s :: s in r <==> s in prev || exists i :: 0 <= i < |us| && us[i].symbol == s
    ensures forall s :: s in r ==> r[s] in us || (s in prev && r[s] == prev[s])
    decreases |us|
  {
    if us == [] then prev else MergeAll(MergeUpdate(prev, us[0]), us[1..])
  }

  /** The last update in `us` for `sym`, if any. */
  function LastFor(us: seq<PriceUpdate>, sym: string): Option<PriceUpdate>
  {
    if us == [] then None
    else if us[|us| - 1].symbol == sym then Some(us[|us| - 1])
    else LastFor(us[..|us| - 1], sym)
  }

  lemma {:induction false} MergeAllSnoc(prev: Updates, us: seq<PriceUpdate>, u: PriceUpdate)
    ensures MergeAll(prev, us + [u]) == MergeUpdate(MergeAll(prev, us), u)
    decreases |us|
  {
    if us != [] {
      assert (us + [u])[1..] == us[1..] + [u];
      MergeAllSnoc(MergeUpdate(prev, us[0]), us[1..], u);
    }
  }

  /** After a stream of updates each symbol shows its latest update, or its old entry when none came. */
  lemma {:induction false} MergeAllKeepsLatest(prev: Updates, us: seq<PriceUpdate>, sym: string)
    ensures LastFor(us, sym).Some? ==> sym in MergeAll(prev, us) && MergeAll(prev, us)[sym] == LastFor(us, sym).value
    ensures LastFor(us, sym).None? ==>
      (sym in MergeAll(prev, us) <==> sym in prev) && (sym in prev ==> MergeAll(prev, us)[sym] == prev[sym])
  {
    if us != [] {
      var init := us[..|us| - 1];
      var u := us[|us| - 1];
      assert us == init + [u];
      MergeAllSnoc(prev, init, u);
      MergeAllKeepsLatest(prev, init, sym);
    }
  }

  /** `positions.reduce((best, pos) => pos.changePercent > best.changePercent ? pos : best)`, from `best` on. */
  function Fold(best: Position, rest: seq<Position>): (r: Position)
    ensures r == best || r in rest
    ensures r.changePercent >= best.changePercent
    ensures forall i :: 0 <= i < |rest| ==> rest[i].changePercent <= r.changePercent
    decreases |rest|
  {
    if rest == [] then best
    else Fold(if rest[0].changePercent > best.changePercent then rest[0] else best, rest[1..])
  }

  /** The best performer; `reduce` without a seed throws on an empty list, which is `None` here. */
  function BestPerformer(ps: seq<Position>): (r: Option<Position>)
    ensures r.Some? <==> ps != []
    ensures r.Some? ==> r.value in ps && forall i :: 0 <= i < |ps| ==> ps[i].changePercent <= r.value.changePercent
  {
    if ps == [] then None else Some(Fold(ps[0], ps[1..]))
  }

  /** The position `Fold` ends on is `best` or comes first among those beating all before it. */
  /**
   * Where the fold's result comes from: the seed when nothing beats it (`i ==
   * -1`), or else the first element of `rest` that beats all before it.
   */
  lemma {:induction false} FoldIndex(best: Position, rest: seq<Position>) returns (i: int)
    ensures -1 <= i < |rest|
    ensures i == -1 ==> Fold(best, rest) == best && forall j :: 0 <= j < |rest| ==> rest[j].changePercent <= best.changePercent
    ensures i >= 0 ==> (rest[i] == Fold(best, rest) && rest[i].changePercent > best.changePercent &&
      forall j :: 0 <= j < i ==> rest[j].changePercent < rest[i].changePercent)
    decreases |rest|
  {
    if rest == [] {
      i := -1;
    } else {
      var b := if rest[0].changePercent > best.changePercent then rest[0] else best;
      var k := FoldIndex(b, rest[1..]);
      assert Fold(best, rest) == Fold(b, rest[1..]);
      if k >= 0 {
        i := k + 1;
        assert rest[i] == rest[1..][k];
        forall j | 0 <= j < i ensures rest[j].changePercent < rest[i].changePercent {
          if j > 0 { assert rest[j] == rest[1..][j - 1]; }
        }
      } else if b != best {
        i := 0;
      } else {
        i := -1;
        forall j | 0 <= j < |rest| ensures rest[j].changePercent <= best.changePercent {
          if j > 0 { assert rest[j] == rest[1..][j - 1]; }
        }
      }
    }
  }

  lemma FoldEarliest(best: Position, rest: seq<Position>)
    ensures var r := Fold(best, rest);
      (r == best && forall i :: 0 <= i < |rest| ==> rest[i].changePercent <= best.changePercent) ||
      (exists i :: 0 <= i < |rest| && rest[i] == r && r.changePercent > best.changePercent &&
        forall j :: 0 <= j < i ==> rest[j].changePercent < r.changePercent)
  {
    var i := FoldIndex(best, rest);
  }

  /** Ties go to the earliest position: every position before the best one has a strictly lower change. */
  lemma BestIsEarliest(ps: seq<Position>)
    requires ps != []
    ensures exists i :: 0 <= i < |ps| && ps[i] == BestPerformer(ps).value &&
                  forall j :: 0 <= j < i ==> ps[j].changePercent < ps[i].changePercent
  {
    FoldEarliest(ps[0], ps[1..]);
    var r := BestPerformer(ps).value;
    if r == ps[0] && forall i :: 0 <= i < |ps[1..]| ==> ps[1..][i].changePercent <= ps[0].changePercent {
      assert ps[0] == r;
    } else {
      var k :| 0 <= k < |ps[1..]| && ps[1..][k] == r && r.changePercent > ps[0].changePercent &&
        forall j :: 0 <= j < k ==> ps[1..][j].changePercent < r.changePercent;
      forall j | 0 <= j < k + 1 ensures ps[j].changePercent < r.changePercent {
        if j > 0 { assert ps[j] == ps[1..][j - 1]; }
      }
      assert ps[k + 1] == r;
    }
  }

  /** On the demo portfolio the best performer is TSLA at 2.28. */
  lemma DemoBestPerformer()
    ensures BestPerformer(Positions) == Some(Positions[3])
    ensures Positions[3].symbol == "TSLA" && Positions[3].changePercent == 2.28
  {
    assert Positions[1..] == [Positions[1], Positions[2], Positions[3]];
  }

  /** A number through JS `||`: zero (falsy) falls back to the other operand. */
  function OrElse(x: real, fallback: real): (r: real)
    ensures x != 0.0 ==> r == x
    ensures x == 0.0 ==> r == fallback
  {
    if x != 0.0 then x else fallback
  }

  /** What a position row shows. */
  datatype Row = Row(
    symbol: string,
    quantity: real,
    averagePrice: real,
    price: real,
    value: real,
    change: real,
    changePercent: real,
    live: bool)

  function DisplayRow(p: Position, updates: Updates): (r: Row)
    ensures r.symbol == p.symbol && r.quantity == p.quantity && r.averagePrice == p.averagePrice
    ensures r.live <==> p.symbol in updates
    ensures r.value == r.price * p.quantity
    ensures p.symbol !in updates ==>
      r.price == p.currentPrice && r.change == p.change && r.changePercent == p.changePercent
    ensures p.symbol in updates ==> var u := updates[p.symbol];
      r.price == OrElse(u.price, p.currentPrice) && r.change == OrElse(u.change, p.change) &&
      r.changePercent == OrElse(u.changePercent, p.changePercent)
  {
    var live := p.symbol in updates;
    var price := if live then OrElse(updates[p.symbol].price, p.currentPrice) else p.currentPrice;
    var change := if live then OrElse(updates[p.symbol].change, p.change) else p.change;
    var pct := if live then OrElse(updates[p.symbol].changePercent, p.changePercent) else p.changePercent;
    Row(p.symbol, p.quantity, p.averagePrice, price, price * p.quantity, change, pct, live)
  }

  function Rows(ps: seq<Position>, updates: Updates): (r: seq<Row>)
    ensures |r| == |ps|
    ensures forall i :: 0 <= i < |ps| ==> r[i] == DisplayRow(ps[i], updates)
  {
    if ps == [] then [] else [DisplayRow(ps[0], updates)] + Rows(ps[1..], updates)
  }

  /** A row whose merged update was the last one shows that update's non-zero figures and is live. */
  lemma RowShowsFreshUpdate(p: Position, prev: Updates, u: PriceUpdate)
    requires u.symbol == p.symbol && u.price != 0.0
    ensures DisplayRow(p, MergeUpdate(prev, u)).live
    ensures DisplayRow(p, MergeUpdate(prev, u)).price == u.price
    ensures DisplayRow(p, MergeUpdate(prev, u)).value == u.price * p.quantity
  {
  }

  /** An update for another symbol leaves a row as it was. */
  lemma OtherUpdateKeepsRow(p: Position, prev: Updates, u: PriceUpdate)
    requires u.symbol != p.symbol
    ensures DisplayRow(p, MergeUpdate(prev, u)) == DisplayRow(p, prev)
  {
  }

  /** `formatPercent`: a `+` for non-negative values, the two-decimals text, then `%`. */
  function FormatPercent(percent: real, fixed2: real -> string): (r: string)
    ensures |r| > 0 && r[|r| - 1] == '%'
    ensures percent >= 0.0 ==> r == "+" + fixed2(percent) + "%"
    ensures percent < 0.0 ==> r == fixed2(percent) + "%"
  {
    (if percent >= 0.0 then "+" else "") + fixed2(percent) + "%"
  }

  /** The label opens with `+` exactly for non-negative values, as `toFixed` never writes a `+`. */
  lemma PlusIffNonNegative(percent: real, fixed2: real -> string)
    requires fixed2(percent) == [] || fixed2(percent)[0] != '+'
    ensures FormatPercent(percent, fixed2)[0] == '+' <==> percent >= 0.0
  {
    if percent < 0.0 && fixed2(percent) == [] {
      assert FormatPercent(percent, fixed2) == "%";
    }
  }

  function Symbols(ps: seq<Position>): (r: seq<string>)
    ensures |r| == |ps|
    ensures forall i :: 0 <= i < |ps| ==> r[i] == ps[i].symbol
  {
    if ps == [] then [] else [ps[0].symbol] + Symbols(ps[1..])
  }

  lemma DemoSymbols()
    ensures Symbols(Positions) == ["AAPL", "GOOGL", "MSFT", "TSLA"]
  {
  }

  /**
   * The subscription effect: one price subscription for the portfolio's symbols;
   * what it returns is the cleanup that unsubscribes the same listener.
   */
  method SubscribePortfolio(svc: WebSocketService, listener: CallbackId, now: string, sendFails: bool)
    returns (cleanup: Unsubscriber)
    requires svc.Valid()
    modifies svc`outbox, svc`listeners
    ensures svc.Valid()
    ensures svc.outbox == old(svc.outbox) +
      (if old(svc.IsOpen()) && !sendFails then [Frame(Message("subscribe_prices", PriceSymbols(Symbols(Positions)), now))] else [])
    ensures svc.listeners == Subscribed(old(svc.listeners), "price_update", listener)
    ensures cleanup == Unsubscriber("price_update", listener)
  {
    cleanup := svc.SubscribeToPriceUpdates(Symbols(Positions), listener, now, sendFails);
  }

  /** Mounting then running the cleanup leaves the listener unregistered. */
  method MountThenUnmount(svc: WebSocketService, listener: CallbackId, now: string)
    requires svc.Valid()
    modifies svc`outbox, svc`listeners
    ensures svc.Valid()
    ensures !Registered(svc.listeners, "price_update", listener)
    ensures forall t :: t != "price_update" ==> ListenersOf(svc.listeners, t) == ListenersOf(old(svc.listeners), t)
  {
    var cleanup := SubscribePortfolio(svc, listener, now, false);
    svc.Unsubscribe(cleanup);
  }
}
