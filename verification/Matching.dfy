/**
 Matching one incoming lot against the book.  The server reads a batch of crossing lots,
 settles them in order until the accumulated amount equals the requested one, and reads
 the next batch.  Selling and buying differ only in the side and in the price comparison.
 */
module Matching {
  import opened Tables
  import opened Settlement

  // A lot as a query returned it.  For the incoming lot, `usd` is the whole requested amount.
  datatype Row = Row(id: nat, user: nat, side: Side, usd: int, price: int)

  function RowOf(db: Db, id: nat): Row
    requires id in db.lots
  {
    var l := db.lots[id];
    Row(id, l.user, l.side, l.usd, l.price)
  }

  // ---------------------------------------------------------------- the query

  predicate Crosses(side: Side, price: int, counterPrice: int) {
    if side == Sell then counterPrice >= price else counterPrice <= price
  }

  predicate Crossing(o: Row, l: Lot) {
    Crosses(o.side, o.price, l.price) && l.side != o.side && l.active && l.user != o.user
  }

  function Candidates(db: Db, o: Row): set<nat> {
    set i | i in db.lots && Crossing(o, db.lots[i])
  }

  function Ids(rows: seq<Row>): set<nat> {
    set r | r in rows :: r.id
  }

  ghost predicate DistinctIds(rows: seq<Row>) {
    forall i, j :: 0 <= i < j < |rows| ==> rows[i].id != rows[j].id
  }

  ghost predicate PriceDescending(rows: seq<Row>) {
    forall i, j :: 0 <= i < j < |rows| ==> rows[i].price >= rows[j].price
  }

  // `rows` are the first |rows| of these lots in some order by descending price.
  ghost predicate SortedFrom(db: Db, cs: set<nat>, rows: seq<Row>)
    requires cs <= db.lots.Keys
  {
    && (forall i :: 0 <= i < |rows| ==> rows[i].id in cs && rows[i] == RowOf(db, rows[i].id))
    && DistinctIds(rows)
    && PriceDescending(rows)
    && (forall c, i :: c in cs && c !in Ids(rows) && 0 <= i < |rows| ==> db.lots[c].price <= rows[i].price)
  }

  // As many of them as the limit allows.
  ghost predicate FirstFrom(db: Db, cs: set<nat>, rows: seq<Row>, limit: nat)
    requires cs <= db.lots.Keys
  {
    && SortedFrom(db, cs, rows)
    && |rows| <= limit
    && (|rows| < limit ==> cs <= Ids(rows))
  }

  ghost predicate SortedPrefix(db: Db, o: Row, rows: seq<Row>) {
    SortedFrom(db, Candidates(db, o), rows)
  }

  // All candidates, in some order by descending price.
  ghost predicate SortedListing(db: Db, o: Row, rows: seq<Row>) {
    SortedPrefix(db, o, rows) && Candidates(db, o) <= Ids(rows)
  }

  // The result of the query: ties in price may come in any order.
  ghost predicate Snapshot(db: Db, o: Row, rows: seq<Row>, limit: nat) {
    FirstFrom(db, Candidates(db, o), rows, limit)
  }

  // ---------------------------------------------------------------- settling one row

  function SellerIn(o: Row, row: Row): nat {
    if o.side == Sell then o.user else row.user
  }

  function BuyerIn(o: Row, row: Row): nat {
    if o.side == Sell then row.user else o.user
  }

  // The branches compare the row with the requested amount, not with what is left of it.
  function Settle(db: Db, o: Row, row: Row): Db {
    var buyer, seller := BuyerIn(o, row), SellerIn(o, row);
    if o.usd > row.usd then
      CloseOne(db, row.id, row.user, o.user, buyer, seller, row.usd, row.price)
    else if o.usd < row.usd then
      CloseOne(db, o.id, o.user, row.user, buyer, seller, o.usd, row.price)
    else if o.side == Sell then
      CloseBoth(db, o.id, row.id, seller, buyer, seller, buyer, o.usd, row.price)
    else
      CloseBoth(db, row.id, o.id, seller, buyer, seller, buyer, o.usd, row.price)
  }

  // What the settlement reports.  A two-sided one reports the buying lot and the amount in it.
  function InfoOf(db: Db, o: Row, row: Row): TransactionInfo {
    var seller, buyer := NameOf(db, SellerIn(o, row)), NameOf(db, BuyerIn(o, row));
    if o.usd > row.usd then TransactionInfo(row.id, row.usd, row.price, seller, buyer)
    else if o.usd < row.usd then TransactionInfo(o.id, o.usd, row.price, seller, buyer)
    else
      var buyLot := if o.side == Sell then row.id else o.id;
      TransactionInfo(buyLot, AmountOf(db, buyLot), row.price, seller, buyer)
  }

  // One settlement: the row, the amount accumulated before it, and its report.
  datatype Trade = Trade(row: Row, before: int, info: TransactionInfo)

  // The state of a placement: tables, accumulated amount, settlements so far.
  datatype Progress = Progress(db: Db, acc: int, trades: seq<Trade>)

  function SettleRow(p: Progress, o: Row, row: Row): Progress {
    Progress(Settle(p.db, o, row),
             if o.usd > row.usd then p.acc + row.usd else o.usd,
             p.trades + [Trade(row, p.acc, InfoOf(p.db, o, row))])
  }

  // Settles rows in order until the accumulated amount is the requested one.
  function Walk(p: Progress, o: Row, rows: seq<Row>): Progress
    decreases |rows|
  {
    if rows == [] || p.acc == o.usd then p
    else Walk(SettleRow(p, o, rows[0]), o, rows[1..])
  }

  // ---------------------------------------------------------------- invariants of one placement

  // The incoming lot while it is not filled: it holds what has not been accumulated yet.
  ghost predicate Pending(p: Progress, o: Row) {
    && o.id in p.db.lots
    && p.db.lots[o.id] == Lot(o.user, o.side, o.usd - p.acc, o.price, true)
    && !Recorded(p.db, o.id)
  }

  // What a row still tells the truth about: everything but `active`.
  ghost predicate Fresh(db: Db, o: Row, row: Row) {
    && row.id in db.lots && RowOf(db, row.id) == row
    && !Recorded(db, row.id)
    && row.user != o.user && row.side != o.side
  }

  ghost predicate Ready(db: Db, o: Row, rows: seq<Row>) {
    DistinctIds(rows) && forall i :: 0 <= i < |rows| ==> Fresh(db, o, rows[i])
  }

  lemma SnapshotReady(db: Db, o: Row, rows: seq<Row>)
    requires Good(db) && SortedPrefix(db, o, rows)
    ensures Ready(db, o, rows)
  {
    forall i | 0 <= i < |rows| ensures Fresh(db, o, rows[i]) {
      ActiveUnrecorded(db, rows[i].id);
    }
  }

  // The amount that changes hands.
  function AmountIn(o: Row, row: Row): int {
    if o.usd > row.usd then row.usd else o.usd
  }

  function LotsAfter(lots: map<nat, Lot>, o: Row, row: Row): map<nat, Lot> {
    if o.usd > row.usd then LotsAfterOne(lots, row.user, o.user, row.usd)
    else if o.usd < row.usd then LotsAfterOne(lots, o.user, row.user, o.usd)
    else LotsAfterBoth(lots, SellerIn(o, row), BuyerIn(o, row))
  }

  function NewDeals(o: Row, row: Row): seq<Deal> {
    var buyer, seller := BuyerIn(o, row), SellerIn(o, row);
    if o.usd > row.usd then [Deal(buyer, seller, row.id)]
    else if o.usd < row.usd then [Deal(buyer, seller, o.id)]
    else if o.side == Sell then [Deal(buyer, seller, row.id), Deal(buyer, seller, o.id)]
    else [Deal(buyer, seller, o.id), Deal(buyer, seller, row.id)]
  }

  // The incoming lot can still be closed.
  ghost predicate Open(db: Db, o: Row) {
    && o.id in db.lots && !Recorded(db, o.id)
    && db.lots[o.id].user == o.user && db.lots[o.id].side == o.side
  }

  // One settlement keeps every invariant of the tables.
  lemma SettleKeepsGood(db: Db, o: Row, row: Row)
    requires Good(db) && Fresh(db, o, row) && Open(db, o)
    ensures Good(Settle(db, o, row))
  {
    var buyer, seller := BuyerIn(o, row), SellerIn(o, row);
    OwnerThere(db, o.id);
    OwnerThere(db, row.id);
    if o.usd > row.usd {
      CloseOneKeepsGood(db, row.id, row.user, o.user, buyer, seller, row.usd, row.price);
    } else if o.usd < row.usd {
      CloseOneKeepsGood(db, o.id, o.user, row.user, buyer, seller, o.usd, row.price);
    } else if o.side == Sell {
      CloseBothKeepsGood(db, o.id, row.id, seller, buyer, o.usd, row.price);
    } else {
      CloseBothKeepsGood(db, row.id, o.id, seller, buyer, o.usd, row.price);
    }
  }

  // What one settlement does to the three tables.
  lemma SettleEffect(db: Db, o: Row, row: Row)
    requires Good(db) && Fresh(db, o, row) && Open(db, o)
    ensures var r := Settle(db, o, row);
      && Total(r) == Total(db)
      && Settled(db, r, LotsAfter(db.lots, o, row), db.deals + NewDeals(o, row),
                 BuyerIn(o, row), SellerIn(o, row), AmountIn(o, row), row.price * AmountIn(o, row))
  {
    var buyer, seller := BuyerIn(o, row), SellerIn(o, row);
    OwnerThere(db, o.id);
    OwnerThere(db, row.id);
    if o.usd > row.usd {
      CloseOneEffect(db, row.id, row.user, o.user, buyer, seller, row.usd, row.price);
    } else if o.usd < row.usd {
      CloseOneEffect(db, o.id, o.user, row.user, buyer, seller, o.usd, row.price);
    } else if o.side == Sell {
      CloseBothEffect(db, o.id, row.id, seller, buyer, seller, buyer, o.usd, row.price);
    } else {
      CloseBothEffect(db, row.id, o.id, seller, buyer, seller, buyer, o.usd, row.price);
    }
  }

  // ---------------------------------------------------------------- along a batch

  lemma RecordedExtended(a: Db, b: Db, ds: seq<Deal>, lot: nat)
    requires b.deals == a.deals + ds
    ensures Recorded(b, lot) <==> Recorded(a, lot) || exists k :: 0 <= k < |ds| && ds[k].lot == lot
  {
    if Recorded(a, lot) {
      var k :| 0 <= k < |a.deals| && a.deals[k].lot == lot;
      assert b.deals[k].lot == lot;
    }
    if k :| 0 <= k < |ds| && ds[k].lot == lot {
      assert b.deals[|a.deals| + k].lot == lot;
    }
    if Recorded(b, lot) {
      var k :| 0 <= k < |b.deals| && b.deals[k].lot == lot;
      if k >= |a.deals| {
        assert ds[k - |a.deals|].lot == lot;
      } else {
        assert a.deals[k].lot == lot;
      }
    }
  }

  // The tables after settling `row`, as SettleEffect describes them.
  ghost predicate RowSettled(db: Db, o: Row, row: Row, r: Db) {
    Settled(db, r, LotsAfter(db.lots, o, row), db.deals + NewDeals(o, row),
            BuyerIn(o, row), SellerIn(o, row), AmountIn(o, row), row.price * AmountIn(o, row))
  }

  lemma SettledShrinks(db: Db, o: Row, row: Row, r: Db)
    requires RowSettled(db, o, row, r)
    ensures BookShrinks(db, r)
  {
  }

  // A row taken whole leaves the rest of the batch true in everything but `active`.
  lemma SettledKeepsFresh(db: Db, o: Row, row: Row, r: Db, other: Row)
    requires RowSettled(db, o, row, r) && o.usd > row.usd
    requires Fresh(db, o, other) && other.id != row.id
    ensures Fresh(r, o, other)
  {
    RecordedExtended(db, r, NewDeals(o, row), other.id);
  }

  lemma SettledKeepsPending(p: Progress, o: Row, row: Row, r: Db)
    requires Pending(p, o) && RowSettled(p.db, o, row, r) && o.usd > row.usd
    requires Fresh(p.db, o, row)
    ensures Pending(Progress(r, p.acc + row.usd, p.trades), o)
  {
    RecordedExtended(p.db, r, NewDeals(o, row), o.id);
  }

  lemma SettledCloses(db: Db, o: Row, row: Row, r: Db)
    requires RowSettled(db, o, row, r) && o.usd <= row.usd && Open(db, o)
    ensures Recorded(r, o.id) && o.id in r.lots && !r.lots[o.id].active
  {
    RecordedExtended(db, r, NewDeals(o, row), o.id);
    var ds := NewDeals(o, row);
    assert ds[0].lot == o.id || ds[|ds| - 1].lot == o.id;
  }

  // Settling the first row of a batch: an unfilled incoming lot stays accounted for and the rest of
  // the batch stays true in everything but `active`; a filled one is recorded and out of the book.
  lemma StepKeeps(p: Progress, o: Row, rows: seq<Row>)
    requires Good(p.db) && Pending(p, o) && rows != [] && Ready(p.db, o, rows)
    ensures var q := SettleRow(p, o, rows[0]);
      && Good(q.db) && Total(q.db) == Total(p.db) && BookShrinks(p.db, q.db)
      && RowSettled(p.db, o, rows[0], q.db)
      && (o.usd > rows[0].usd ==> Pending(q, o) && Ready(q.db, o, rows[1..]))
      && (o.usd <= rows[0].usd ==> q.acc == o.usd && Recorded(q.db, o.id) && !q.db.lots[o.id].active)
  {
    var row := rows[0];
    var r := Settle(p.db, o, row);
    SettleKeepsGood(p.db, o, row);
    SettleEffect(p.db, o, row);
    SettledShrinks(p.db, o, row, r);
    if o.usd > row.usd {
      SettledKeepsPending(p, o, row, r);
      forall i | 0 <= i < |rows[1..]| ensures Fresh(r, o, rows[1..][i]) {
        SettledKeepsFresh(p.db, o, row, r, rows[i + 1]);
      }
    } else {
      SettledCloses(p.db, o, row, r);
    }
  }

  // The same along a whole batch, wherever it stops.
  lemma {:induction false} WalkKeeps(p: Progress, o: Row, rows: seq<Row>)
    requires Good(p.db) && Ready(p.db, o, rows)
    requires p.acc != o.usd ==> Pending(p, o)
    ensures var q := Walk(p, o, rows);
      && Good(q.db) && Total(q.db) == Total(p.db) && BookShrinks(p.db, q.db)
      && (q.acc != o.usd ==> Pending(q, o))
    decreases |rows|
  {
    if rows != [] && p.acc != o.usd {
      StepKeeps(p, o, rows);
      var q := SettleRow(p, o, rows[0]);
      if q.acc != o.usd {
        WalkKeeps(q, o, rows[1..]);
      }
    }
  }

  // Stopping is final, so walking two lists in turn is walking their concatenation.
  lemma {:induction false} WalkConcat(p: Progress, o: Row, a: seq<Row>, b: seq<Row>)
    ensures Walk(p, o, a + b) == Walk(Walk(p, o, a), o, b)
    decreases |a|
  {
    if a == [] {
      assert a + b == b;
    } else if p.acc != o.usd {
      assert (a + b)[1..] == a[1..] + b;
      WalkConcat(SettleRow(p, o, a[0]), o, a[1..], b);
    }
  }

  lemma {:induction false} WalkSnoc(p: Progress, o: Row, rows: seq<Row>, row: Row)
    requires Walk(p, o, rows).acc != o.usd
    ensures Walk(p, o, rows + [row]) == SettleRow(Walk(p, o, rows), o, row)
  {
    WalkConcat(p, o, rows, [row]);
    var q := Walk(p, o, rows);
    assert Walk(q, o, [row]) == Walk(SettleRow(q, o, row), o, []);
  }

  // The trades a walk adds.
  function NewTrades(p: Progress, o: Row, rows: seq<Row>): seq<Trade>
    decreases |rows|
  {
    if rows == [] || p.acc == o.usd then []
    else [Trade(rows[0], p.acc, InfoOf(p.db, o, rows[0]))] + NewTrades(SettleRow(p, o, rows[0]), o, rows[1..])
  }

  // A placement ends in a two-sided settlement.
  predicate EndsTwoSided(o: Row, ts: seq<Trade>) {
    ts != [] && ts[|ts| - 1].row.usd == o.usd
  }

  // The trades are the rows in order, up to where the walk stopped; all but the last one took a whole
  // row smaller than the request, each report quotes the price of its row, and the history grows by
  // one deal per trade and one more for a two-sided end.
  lemma WalkTrades(p: Progress, o: Row, rows: seq<Row>)
    ensures var q, ts := Walk(p, o, rows), NewTrades(p, o, rows);
      && q.trades == p.trades + ts
      && |ts| <= |rows|
      && (forall i :: 0 <= i < |ts| ==> ts[i].row == rows[i] && ts[i].info.price == rows[i].price)
      && (forall i :: 0 <= i < |ts| - 1 ==> ts[i].row.usd < o.usd)
      && (q.acc != o.usd ==> |ts| == |rows| && forall i :: 0 <= i < |ts| ==> ts[i].row.usd < o.usd)
      && p.db.deals <= q.db.deals
      && |q.db.deals| == |p.db.deals| + |ts| + (if EndsTwoSided(o, ts) then 1 else 0)
  {
    TradesAreRows(p, o, rows);
    HistoryGrows(p, o, rows);
  }

  lemma {:induction false} TradesAreRows(p: Progress, o: Row, rows: seq<Row>)
    ensures var q, ts := Walk(p, o, rows), NewTrades(p, o, rows);
      && q.trades == p.trades + ts
      && |ts| <= |rows|
      && (forall i :: 0 <= i < |ts| ==> ts[i].row == rows[i] && ts[i].info.price == rows[i].price)
      && (forall i :: 0 <= i < |ts| - 1 ==> ts[i].row.usd < o.usd)
      && (q.acc != o.usd ==> |ts| == |rows| && forall i :: 0 <= i < |ts| ==> ts[i].row.usd < o.usd)
    decreases |rows|
  {
    if rows != [] && p.acc != o.usd {
      var q := SettleRow(p, o, rows[0]);
      TradesAreRows(q, o, rows[1..]);
      var ts := NewTrades(q, o, rows[1..]);
      var all := NewTrades(p, o, rows);
      assert all[1..] == ts;
      assert forall i :: 1 <= i < |all| ==> all[i] == ts[i - 1] && rows[i] == rows[1..][i - 1];
      if rows[0].usd >= o.usd {
        assert q.acc == o.usd && ts == [];
      }
    }
  }

  lemma {:induction false} HistoryGrows(p: Progress, o: Row, rows: seq<Row>)
    ensures var q, ts := Walk(p, o, rows), NewTrades(p, o, rows);
      && p.db.deals <= q.db.deals
      && |q.db.deals| == |p.db.deals| + |ts| + (if EndsTwoSided(o, ts) then 1 else 0)
    decreases |rows|
  {
    if rows != [] && p.acc != o.usd {
      var q := SettleRow(p, o, rows[0]);
      HistoryGrows(q, o, rows[1..]);
      SettleDeals(p.db, o, rows[0]);
      var ts := NewTrades(q, o, rows[1..]);
      assert NewTrades(p, o, rows)[1..] == ts;
      if rows[0].usd >= o.usd {
        assert q.acc == o.usd && ts == [];
      }
    }
  }

  // Only a row that was taken whole is followed by another trade.
  lemma SecondTrade(p: Progress, o: Row, rows: seq<Row>)
    requires |NewTrades(p, o, rows)| > 1
    ensures p.acc != o.usd && rows != [] && rows[0].usd < o.usd
    ensures NewTrades(p, o, rows)[1..] == NewTrades(SettleRow(p, o, rows[0]), o, rows[1..])
  {
    assert NewTrades(p, o, rows)[1..] == NewTrades(SettleRow(p, o, rows[0]), o, rows[1..]);
  }

  lemma {:induction false} BehindIsReady(p: Progress, o: Row, rows: seq<Row>, i: nat)
    requires Good(p.db) && Ready(p.db, o, rows) && (p.acc != o.usd ==> Pending(p, o))
    requires i < |NewTrades(p, o, rows)|
    ensures i < |rows|
    ensures var q := Walk(p, o, rows[..i]);
      Good(q.db) && q.acc != o.usd && Pending(q, o) && Ready(q.db, o, rows[i..])
    decreases |rows|
  {
    if i == 0 {
      assert rows[0..] == rows;
    } else {
      SecondTrade(p, o, rows);
      var q := ConsumeFirst(p, o, rows);
      BehindIsReady(q, o, rows[1..], i - 1);
      assert rows[..i][1..] == rows[1..][..i - 1] && rows[1..][i - 1..] == rows[i..];
    }
  }

  // Before each of the trades the lot is unfilled, and the rest of the batch is still true in everything
  // but `active`.
  lemma RestStaysTrue(p: Progress, o: Row, rows: seq<Row>, i: nat)
    requires Good(p.db) && Ready(p.db, o, rows) && (p.acc != o.usd ==> Pending(p, o))
    requires i < |NewTrades(p, o, rows)|
    ensures i < |rows|
    ensures var q := Walk(p, o, rows[..i]);
      && Good(q.db) && q.acc != o.usd && Pending(q, o)
      && forall j :: i <= j < |rows| ==> Fresh(q.db, o, rows[j])
  {
    BehindIsReady(p, o, rows, i);
    assert forall j :: i <= j < |rows| ==> rows[j] == rows[i..][j - i];
  }

  lemma SettleDeals(db: Db, o: Row, row: Row)
    ensures Settle(db, o, row).deals == db.deals + NewDeals(o, row)
  {
    var buyer, seller := BuyerIn(o, row), SellerIn(o, row);
    if o.usd > row.usd {
      CloseOneDeals(db, row.id, row.user, o.user, buyer, seller, row.usd, row.price);
    } else if o.usd < row.usd {
      CloseOneDeals(db, o.id, o.user, row.user, buyer, seller, o.usd, row.price);
    } else if o.side == Sell {
      CloseBothDeals(db, o.id, row.id, seller, buyer, seller, buyer, o.usd, row.price);
    } else {
      CloseBothDeals(db, row.id, o.id, seller, buyer, seller, buyer, o.usd, row.price);
    }
  }

  function Owners(rows: seq<Row>): set<nat> {
    if rows == [] then {} else {rows[0].user} + Owners(rows[1..])
  }

  // A lot after some smaller rows, of these owners, were taken for `user`.
  function Swept(l: Lot, user: nat, took: int, owners: set<nat>): Lot {
    l.(usd := if l.user == user then l.usd - took else l.usd, active := l.active && l.user !in owners)
  }

  lemma {:induction false} OwnersAre(rows: seq<Row>, user: nat)
    ensures user in Owners(rows) <==> exists i :: 0 <= i < |rows| && rows[i].user == user
  {
    if rows != [] {
      OwnersAre(rows[1..], user);
      if i :| 0 <= i < |rows[1..]| && rows[1..][i].user == user {
        assert rows[i + 1].user == user;
      }
      if i :| 0 < i < |rows| && rows[i].user == user {
        assert rows[1..][i - 1].user == user;
      }
    }
  }

  ghost predicate AllSwept(a: Db, b: Db, user: nat, took: int, owners: set<nat>) {
    && a.lots.Keys == b.lots.Keys
    && forall i :: i in a.lots ==> b.lots[i] == Swept(a.lots[i], user, took, owners)
  }

  lemma OneSwept(db: Db, o: Row, row: Row, r: Db)
    requires RowSettled(db, o, row, r) && o.usd > row.usd
    ensures AllSwept(db, r, o.user, row.usd, {row.user})
  {
    assert r.lots == LotsAfterOne(db.lots, row.user, o.user, row.usd);
  }

  lemma SweptTwice(a: Db, b: Db, c: Db, user: nat, t1: int, t2: int, t: int,
                   s1: set<nat>, s2: set<nat>, s: set<nat>)
    requires AllSwept(a, b, user, t1, s1) && AllSwept(b, c, user, t2, s2)
    requires t == t1 + t2 && s == s1 + s2
    ensures AllSwept(a, c, user, t, s)
  {
  }

  // A first row that is smaller than the request.
  lemma ConsumeFirst(p: Progress, o: Row, rows: seq<Row>) returns (q: Progress)
    requires Good(p.db) && Pending(p, o) && rows != [] && Ready(p.db, o, rows)
    requires rows[0].usd < o.usd && p.acc != o.usd
    ensures q == SettleRow(p, o, rows[0]) && q.acc == p.acc + rows[0].usd
    ensures Walk(p, o, rows) == Walk(q, o, rows[1..])
    ensures Good(q.db) && Pending(q, o) && Ready(q.db, o, rows[1..])
    ensures AllSwept(p.db, q.db, o.user, rows[0].usd, {rows[0].user})
  {
    q := SettleRow(p, o, rows[0]);
    StepKeeps(p, o, rows);
    OneSwept(p.db, o, rows[0], q.db);
  }

  // The first step of a walk that does not fill the incoming lot.
  lemma SweepStep(p: Progress, o: Row, rows: seq<Row>) returns (q: Progress)
    requires Good(p.db) && Pending(p, o) && rows != [] && Ready(p.db, o, rows)
    requires Walk(p, o, rows).acc != o.usd
    ensures Walk(p, o, rows) == Walk(q, o, rows[1..])
    ensures Good(q.db) && Pending(q, o) && Ready(q.db, o, rows[1..])
    ensures AllSwept(p.db, q.db, o.user, q.acc - p.acc, {rows[0].user})
  {
    assert rows[0].usd < o.usd;
    q := ConsumeFirst(p, o, rows);
  }

  // Every row of a batch that does not fill the incoming lot is taken whole: its owner's lots leave the
  // book, the incoming owner's amounts drop by what was taken, and nothing else in `requests` changes.
  lemma {:induction false} SweepExact(p: Progress, o: Row, rows: seq<Row>, r: Progress)
    requires Good(p.db) && Pending(p, o) && Ready(p.db, o, rows)
    requires r == Walk(p, o, rows) && r.acc != o.usd
    ensures AllSwept(p.db, r.db, o.user, r.acc - p.acc, Owners(rows))
    decreases |rows|
  {
    if rows == [] {
    } else {
      var q := SweepStep(p, o, rows);
      SweepExact(q, o, rows[1..], r);
      SweptTwice(p.db, q.db, r.db, o.user, q.acc - p.acc, r.acc - q.acc, r.acc - p.acc,
                 {rows[0].user}, Owners(rows[1..]), Owners(rows));
    }
  }
}
