/**
 Reports against balances: replaying the reports of a placement over the balances before it, by the
 names in the reports, and comparing with the balances after it.
 */
module Ledger {
  import opened Tables
  import opened Settlement
  import opened Matching
  import opened Batching
  import opened Stopping
  import opened Planning

  // One account as a reader of the report would update it.
  function Credited(a: Account, r: TransactionInfo): Account {
    a.(usd := a.usd + (if a.name == r.buyer then r.usd else 0) - (if a.name == r.seller then r.usd else 0),
       rub := a.rub + (if a.name == r.seller then r.price * r.usd else 0)
                    - (if a.name == r.buyer then r.price * r.usd else 0))
  }

  function ReplayOne(accounts: map<nat, Account>, r: TransactionInfo): map<nat, Account> {
    map u | u in accounts :: Credited(accounts[u], r)
  }

  function Replay(accounts: map<nat, Account>, ts: seq<Trade>): map<nat, Account> {
    if ts == [] then accounts else Replay(ReplayOne(accounts, ts[0].info), ts[1..])
  }

  // The report that does not say what happened: a two-sided close of a buying lot that had already
  // taken something reports what was left in the lot, while the whole request changed hands.
  predicate Misreported(o: Row, t: Trade) {
    o.side == Buy && t.row.usd == o.usd && t.before != 0
  }

  // The two parties are told apart by their names.
  lemma NamesTell(db: Db, u: nat, v: nat)
    requires Good(db) && u in db.accounts && v in db.accounts
    ensures db.accounts[u].name == NameOf(db, v) <==> u == v
  {
    assert NamesApart(db, u, v);
  }

  // One report is exact, unless it is the misreported one.
  lemma ReportExact(p: Progress, o: Row, row: Row)
    requires Good(p.db) && Pending(p, o) && Fresh(p.db, o, row)
    ensures ReplayOne(p.db.accounts, InfoOf(p.db, o, row)) == Settle(p.db, o, row).accounts
       <==> !Misreported(o, Trade(row, p.acc, InfoOf(p.db, o, row)))
  {
    var r := Settle(p.db, o, row);
    SettleEffect(p.db, o, row);
    OwnerThere(p.db, o.id);
    OwnerThere(p.db, row.id);
    ReportAgainst(p, o, row, r);
  }

  lemma ReportAgainst(p: Progress, o: Row, row: Row, r: Db)
    requires Good(p.db) && Pending(p, o) && Fresh(p.db, o, row) && RowSettled(p.db, o, row, r)
    requires BuyerIn(o, row) in p.db.accounts && SellerIn(o, row) in p.db.accounts
    ensures ReplayOne(p.db.accounts, InfoOf(p.db, o, row)) == r.accounts
       <==> !Misreported(o, Trade(row, p.acc, InfoOf(p.db, o, row)))
  {
    var info := InfoOf(p.db, o, row);
    var buyer, seller := BuyerIn(o, row), SellerIn(o, row);
    if Misreported(o, Trade(row, p.acc, info)) {
      NamesTell(p.db, buyer, buyer);
      NamesTell(p.db, buyer, seller);
      assert ReplayOne(p.db.accounts, info)[buyer].usd == p.db.accounts[buyer].usd + o.usd - p.acc;
      assert r.accounts[buyer].usd
          == p.db.accounts[buyer].usd + Gain(buyer, buyer, seller, o.usd, row.price * o.usd).usd;
    } else {
      assert info.usd == AmountIn(o, row);
      forall u | u in p.db.accounts ensures Credited(p.db.accounts[u], info) == r.accounts[u] {
        NamesTell(p.db, u, buyer);
        NamesTell(p.db, u, seller);
        var g := Gain(u, buyer, seller, AmountIn(o, row), row.price * AmountIn(o, row));
        assert r.accounts[u].usd == p.db.accounts[u].usd + g.usd;
      }
    }
  }

  // The reports of the settled rows account for the balances after them.
  ghost predicate Accounted(p: Progress, o: Row, rows: seq<Row>) {
    Replay(p.db.accounts, NewTrades(p, o, rows)) == Walk(p, o, rows).db.accounts
  }

  // Replaying all reports of a batch gives the balances after it if and only if the batch did not end
  // in a misreported close.
  lemma {:induction false} WalkReplay(p: Progress, o: Row, rows: seq<Row>)
    requires Good(p.db) && Ready(p.db, o, rows) && (p.acc != o.usd ==> Pending(p, o))
    ensures var ts := NewTrades(p, o, rows);
      Accounted(p, o, rows) <==> ts == [] || !Misreported(o, ts[|ts| - 1])
    decreases |rows|
  {
    if rows != [] && p.acc != o.usd {
      var q := SettleRow(p, o, rows[0]);
      var ts := NewTrades(p, o, rows);
      ReportExact(p, o, rows[0]);
      StepKeeps(p, o, rows);
      var rest := NewTrades(q, o, rows[1..]);
      assert ts[1..] == rest;
      if rows[0].usd >= o.usd {
        assert rest == [] && Walk(p, o, rows) == q;
        assert Replay(p.db.accounts, ts) == ReplayOne(p.db.accounts, ts[0].info);
      } else {
        WalkReplay(q, o, rows[1..]);
      }
    }
  }

  // For every selling placement, and for a buying one exactly when it does not end in a two-sided close
  // after something had been accumulated, the reports of all rounds account for the final balances.
  lemma PlacementReplay(p: Progress, o: Row, limit: nat, batches: seq<seq<Row>>)
    requires Good(p.db) && Pending(p, o) && Rounds(p, o, limit, batches)
    ensures var flat := Flatten(batches);
      var ts := NewTrades(p, o, flat);
      Accounted(p, o, flat) <==> !(o.side == Buy && EndsTwoSided(o, ts) && ts[|ts| - 1].before != 0)
  {
    RoundsInOrder(p, o, limit, batches);
    WalkReplay(p, o, Flatten(batches));
  }

  // With positive amounts something has been accumulated as soon as there was a trade before.
  lemma {:induction false} BeforePositive(p: Progress, o: Row, rows: seq<Row>, i: nat)
    requires i < |NewTrades(p, o, rows)| && forall j :: 0 <= j < |rows| ==> rows[j].usd > 0
    ensures NewTrades(p, o, rows)[i].before >= p.acc
    ensures i > 0 ==> NewTrades(p, o, rows)[i].before > p.acc
    decreases |rows|
  {
    if i > 0 {
      var q := SettleRow(p, o, rows[0]);
      WalkTrades(p, o, rows);
      BeforePositive(q, o, rows[1..], i - 1);
      assert NewTrades(p, o, rows)[0].row.usd < o.usd;
    }
  }

  // So for positive amounts a buying placement is accounted for exactly when a two-sided close is
  // absent or is its first trade.
  lemma BuyingReplay(p: Progress, o: Row, limit: nat, batches: seq<seq<Row>>)
    requires Good(p.db) && Pending(p, o) && Rounds(p, o, limit, batches) && p.acc == 0 && o.side == Buy
    requires forall c :: c in Candidates(p.db, o) ==> p.db.lots[c].usd > 0
    ensures var flat := Flatten(batches);
      var ts := NewTrades(p, o, flat);
      Accounted(p, o, flat) <==> !EndsTwoSided(o, ts) || |ts| == 1
  {
    var flat := Flatten(batches);
    var ts := NewTrades(p, o, flat);
    PlacementReplay(p, o, limit, batches);
    RoundsInOrder(p, o, limit, batches);
    if ts != [] {
      WalkTrades(p, o, flat);
      forall j | 0 <= j < |flat| ensures flat[j].usd > 0 {
        assert flat[j].id in Candidates(p.db, o);
      }
      BeforePositive(p, o, flat, |ts| - 1);
    }
  }

  // The rows say beforehand whether a buy is misaccounted: the first row that is not smaller than the
  // request equals it, after rows that add up to something else than nothing and than the request.
  predicate MisreportedOver(o: Row, rows: seq<Row>, k: nat) {
    && o.side == Buy
    && k < |rows| && rows[k].usd == o.usd
    && Sum(rows[..k]) != 0 && Sum(rows[..k]) != o.usd
  }

  lemma MisreportedIff(p: Progress, o: Row, rows: seq<Row>, k: nat)
    requires p.acc == 0 && StopsAt(o.usd, 0, rows, k)
    ensures var ts := NewTrades(p, o, rows);
      MisreportedOver(o, rows, k) <==> ts != [] && Misreported(o, ts[|ts| - 1])
  {
    StopTrades(p, o, rows, k);
    WalkTrades(p, o, rows);
  }

  // For any amounts the reports of a placement account for the balances if and only if the settled
  // batches do not say so.
  lemma RowsReplay(p: Progress, o: Row, limit: nat, batches: seq<seq<Row>>, k: nat)
    requires Good(p.db) && Pending(p, o) && Rounds(p, o, limit, batches) && p.acc == 0
    requires StopsAt(o.usd, 0, Flatten(batches), k)
    ensures Accounted(p, o, Flatten(batches)) <==> !MisreportedOver(o, Flatten(batches), k)
  {
    RoundsInOrder(p, o, limit, batches);
    WalkReplay(p, o, Flatten(batches));
    MisreportedIff(p, o, Flatten(batches), k);
  }

  // A plan says so before the placement, whatever the book; and if no two crossing lots have the same
  // price, there is only one plan.
  lemma PlanReplay(p: Progress, o: Row, limit: nat, batches: seq<seq<Row>>)
    requires Good(p.db) && Pending(p, o) && p.acc == 0
    requires Rounds(p, o, limit, batches) && Finished(Walk(p, o, Flatten(batches)), o)
    ensures exists plan, k ::
      && Plan(p.db, o, limit, plan) && StopsAt(o.usd, 0, Flatten(plan), k)
      && (Accounted(p, o, Flatten(batches)) <==> !MisreportedOver(o, Flatten(plan), k))
    ensures PricesApart(p.db, Candidates(p.db, o)) ==> forall plan, k ::
      Plan(p.db, o, limit, plan) && StopsAt(o.usd, 0, Flatten(plan), k)
      ==> (Accounted(p, o, Flatten(batches)) <==> !MisreportedOver(o, Flatten(plan), k))
  {
    var k := StopExists(o.usd, 0, Flatten(batches));
    PlacementIsPlan(p, o, limit, batches);
    RowsReplay(p, o, limit, batches, k);
    if PricesApart(p.db, Candidates(p.db, o)) {
      forall plan, j | Plan(p.db, o, limit, plan) && StopsAt(o.usd, 0, Flatten(plan), j)
        ensures Accounted(p, o, Flatten(batches)) <==> !MisreportedOver(o, Flatten(plan), j)
      {
        PlanIsUnique(p.db, o, limit, batches, plan);
        StopUnique(o.usd, 0, Flatten(batches), j, k);
      }
    }
  }

  // With one lot per user a sorted listing of all crossing lots says so too, whatever the batch limit.
  lemma ListingReplay(p: Progress, o: Row, limit: nat, batches: seq<seq<Row>>)
    requires Good(p.db) && Pending(p, o) && p.acc == 0 && SingleLots(p.db, o.user)
    requires Rounds(p, o, limit, batches) && Finished(Walk(p, o, Flatten(batches)), o)
    ensures exists all, k ::
      && SortedListing(p.db, o, all) && StopsAt(o.usd, 0, all, k)
      && (Accounted(p, o, Flatten(batches)) <==> !MisreportedOver(o, all, k))
    ensures PricesApart(p.db, Candidates(p.db, o)) ==> forall all, k ::
      SortedListing(p.db, o, all) && StopsAt(o.usd, 0, all, k)
      ==> (Accounted(p, o, Flatten(batches)) <==> !MisreportedOver(o, all, k))
  {
    var flat := Flatten(batches);
    BatchedIsOnePass(p, o, limit, batches);
    var all :| SortedListing(p.db, o, all) && Walk(p, o, all) == Walk(p, o, flat);
    SameTrades(p, o, flat, all);
    var k := StopExists(o.usd, 0, all);
    ListingAccounted(p, o, all, k);
    if PricesApart(p.db, Candidates(p.db, o)) {
      forall other, j | SortedListing(p.db, o, other) && StopsAt(o.usd, 0, other, j)
        ensures Accounted(p, o, flat) <==> !MisreportedOver(o, other, j)
      {
        ListingIsUnique(p.db, o, all, other);
        StopUnique(o.usd, 0, all, j, k);
      }
    }
  }

  lemma ListingAccounted(p: Progress, o: Row, all: seq<Row>, k: nat)
    requires Good(p.db) && Pending(p, o) && p.acc == 0
    requires SortedPrefix(p.db, o, all) && StopsAt(o.usd, 0, all, k)
    ensures Accounted(p, o, all) <==> !MisreportedOver(o, all, k)
  {
    SnapshotReady(p.db, o, all);
    WalkReplay(p, o, all);
    MisreportedIff(p, o, all, k);
  }

  // Equal walks made equal trades.
  lemma SameTrades(p: Progress, o: Row, xs: seq<Row>, ys: seq<Row>)
    requires Walk(p, o, xs) == Walk(p, o, ys)
    ensures NewTrades(p, o, xs) == NewTrades(p, o, ys)
  {
    WalkTrades(p, o, xs);
    WalkTrades(p, o, ys);
    var q, n := Walk(p, o, xs), |p.trades|;
    assert NewTrades(p, o, xs) == q.trades[n..] && NewTrades(p, o, ys) == q.trades[n..];
  }

  // The failing family is not empty: two sellers offer 5 and 10 dollars, and a request for 10 takes both.
  const OFFERS := Db(
    map[1 := Account("a", "", 0, 0), 2 := Account("b", "", 0, 0), 3 := Account("c", "", 0, 0)], 4,
    map[1 := Lot(2, Sell, 5, 7, true), 2 := Lot(3, Sell, 10, 7, true), 3 := Lot(1, Buy, 10, 7, true)], 4,
    [])
  const FIVE := Row(1, 2, Sell, 5, 7)
  const TEN := Row(2, 3, Sell, 10, 7)
  const WANTED := Row(3, 1, Buy, 10, 7)

  lemma OffersSound()
    ensures Good(OFFERS) && Pending(Progress(OFFERS, 0, []), WANTED)
    ensures Snapshot(OFFERS, WANTED, [FIVE, TEN], 100)
  {
    assert forall u: nat :: UserIdUsed(OFFERS, u);
    assert forall u: nat, v: nat :: NamesApart(OFFERS, u, v);
    assert forall i: nat :: LotSound(OFFERS, i);
    assert forall k: nat :: DealSound(OFFERS, k);
    assert forall j: nat, k: nat :: DealsApart(OFFERS, j, k);
    assert Candidates(OFFERS, WANTED) == {1, 2};
    assert FIVE in [FIVE, TEN] && TEN in [FIVE, TEN];
  }

  lemma OffersSingle()
    ensures SingleLots(OFFERS, WANTED.user)
  {
  }

  // Five dollars are taken whole, then ten settle the whole request.
  lemma OffersStop()
    ensures StopsAt(WANTED.usd, 0, [FIVE, TEN], 1) && Sum([FIVE, TEN][..1]) == 5
  {
    var rows := [FIVE, TEN];
    assert rows[..0] == [] && rows[..1] == [FIVE] && [FIVE][1..] == [];
  }

  lemma OffersFinish(p: Progress)
    requires p.acc == 0
    ensures Walk(p, WANTED, [FIVE, TEN]).acc == WANTED.usd
  {
    var q := SettleRow(p, WANTED, FIVE);
    assert [FIVE, TEN][1..] == [TEN];
    assert Walk(q, WANTED, [TEN]) == Walk(SettleRow(q, WANTED, TEN), WANTED, []);
  }

  lemma ReplayCanFail(p: Progress, batches: seq<seq<Row>>)
    requires p == Progress(OFFERS, 0, []) && batches == [[FIVE, TEN]]
    ensures Good(p.db) && Pending(p, WANTED) && SingleLots(p.db, WANTED.user)
    ensures Rounds(p, WANTED, 100, batches) && Finished(Walk(p, WANTED, Flatten(batches)), WANTED)
    ensures !Accounted(p, WANTED, Flatten(batches))
  {
    var flat := Flatten(batches);
    assert Good(p.db) && Pending(p, WANTED) && Snapshot(p.db, WANTED, [FIVE, TEN], 100) by {
      OffersSound();
    }
    assert SingleLots(p.db, WANTED.user) by {
      OffersSingle();
    }
    assert flat == [FIVE, TEN] && Rounds(p, WANTED, 100, batches) by {
      OneRound(p, WANTED, 100, [FIVE, TEN]);
    }
    assert Finished(Walk(p, WANTED, flat), WANTED) by {
      OffersFinish(p);
    }
    assert MisreportedOver(WANTED, flat, 1) && StopsAt(WANTED.usd, 0, flat, 1) by {
      OffersStop();
    }
    RowsReplay(p, WANTED, 100, batches, 1);
  }
}
