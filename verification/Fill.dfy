/**
 Fill accounting of one placement with positive amounts, where the whole crossing quantity fits
 into the request.
 */
module Fill {
  import opened Tables
  import opened Settlement
  import opened Matching
  import opened Batching
  import opened Stopping
  import opened Planning
  import opened Ledger

  // The dollars in a set of lots.
  ghost function Quantity(db: Db, cs: set<nat>): int
    requires cs <= db.lots.Keys
    decreases |cs|
  {
    if cs == {} then 0
    else var c :| c in cs; db.lots[c].usd + Quantity(db, cs - {c})
  }

  // It does not matter which lot is counted first.
  lemma {:induction false} QuantityWithout(db: Db, cs: set<nat>, c: nat)
    requires cs <= db.lots.Keys && c in cs
    ensures Quantity(db, cs) == db.lots[c].usd + Quantity(db, cs - {c})
    decreases |cs|
  {
    var d :| d in cs && Quantity(db, cs) == db.lots[d].usd + Quantity(db, cs - {d});
    if d != c {
      QuantityWithout(db, cs - {d}, c);
      QuantityWithout(db, cs - {c}, d);
      assert cs - {d} - {c} == cs - {c} - {d};
    }
  }

  // A list of distinct lots adds up to the quantity in them.
  lemma {:induction false} SumIsQuantity(db: Db, rows: seq<Row>)
    requires DistinctIds(rows)
    requires forall i :: 0 <= i < |rows| ==> rows[i].id in db.lots && rows[i].usd == db.lots[rows[i].id].usd
    ensures Ids(rows) <= db.lots.Keys && Sum(rows) == Quantity(db, Ids(rows))
  {
    if rows != [] {
      SumIsQuantity(db, rows[1..]);
      IdsHead(rows);
      assert Ids(rows) - {rows[0].id} == Ids(rows[1..]);
      QuantityWithout(db, Ids(rows), rows[0].id);
    }
  }

  // All owners of the list are out of the book, and the incoming lot holds the rest of the request.
  ghost predicate Consumed(p: Progress, q: Progress, o: Row, rows: seq<Row>) {
    q.acc == p.acc + Sum(rows) && Pending(q, o) && AllSwept(p.db, q.db, o.user, Sum(rows), Owners(rows))
  }

  // Rows that are all smaller than the request and fit into it are consumed one and all.
  lemma {:induction false} SmallerRowsConsumed(p: Progress, o: Row, rows: seq<Row>)
    requires Good(p.db) && Pending(p, o) && Ready(p.db, o, rows) && Positive(rows)
    requires p.acc + Sum(rows) <= o.usd && forall i :: 0 <= i < |rows| ==> rows[i].usd < o.usd
    ensures Consumed(p, Walk(p, o, rows), o, rows)
    decreases |rows|
  {
    if rows != [] {
      SumPositive(rows);
      var q := ConsumeFirst(p, o, rows);
      SmallerRowsConsumed(q, o, rows[1..]);
      SweptTwice(p.db, q.db, Walk(q, o, rows[1..]).db, o.user, rows[0].usd, Sum(rows[1..]), Sum(rows),
                 {rows[0].user}, Owners(rows[1..]), Owners(rows));
    }
  }

  // A row equal to the request can only be alone.
  lemma {:induction false} EqualRowAlone(rows: seq<Row>, usd: int, k: nat)
    requires Positive(rows) && Sum(rows) <= usd && k < |rows| && rows[k].usd >= usd
    ensures |rows| == 1 && rows[0].usd == usd
  {
    SumPositive(rows);
    SumPositive(rows[1..]);
    if k > 0 {
      EqualRowAlone(rows[1..], usd, k - 1);
    }
  }

  // One placement whose request covers everything it crosses: in the end no crossing lot of others is
  // left in the book, and either exactly the difference remains on the incoming lot, which stays in the
  // book, or a single equal lot closed both.
  lemma FillAccounting(p: Progress, o: Row, limit: nat, batches: seq<seq<Row>>)
    requires Good(p.db) && Pending(p, o) && p.acc == 0 && SingleLots(p.db, o.user)
    requires Rounds(p, o, limit, batches) && Finished(Walk(p, o, Flatten(batches)), o)
    requires forall c :: c in Candidates(p.db, o) ==> p.db.lots[c].usd > 0
    requires Quantity(p.db, Candidates(p.db, o)) <= o.usd
    ensures var q := Walk(p, o, Flatten(batches));
      var crossing := Candidates(p.db, o);
      && (forall c :: c in crossing ==> c in q.db.lots && !q.db.lots[c].active)
      && (if exists c :: c in crossing && p.db.lots[c].usd == o.usd
          then (exists c :: crossing == {c}) && o.id in q.db.lots && !q.db.lots[o.id].active
          else q.acc == Quantity(p.db, crossing) && Pending(q, o))
  {
    BatchedIsOnePass(p, o, limit, batches);
    var all :| SortedListing(p.db, o, all) && Walk(p, o, all) == Walk(p, o, Flatten(batches));
    ListingFilled(p, o, all);
  }

  lemma ListingFilled(p: Progress, o: Row, all: seq<Row>)
    requires Good(p.db) && Pending(p, o) && p.acc == 0 && SortedListing(p.db, o, all)
    requires forall c :: c in Candidates(p.db, o) ==> p.db.lots[c].usd > 0
    requires Quantity(p.db, Candidates(p.db, o)) <= o.usd
    ensures var q := Walk(p, o, all);
      var crossing := Candidates(p.db, o);
      && (forall c :: c in crossing ==> c in q.db.lots && !q.db.lots[c].active)
      && (if exists c :: c in crossing && p.db.lots[c].usd == o.usd
          then (exists c :: crossing == {c}) && o.id in q.db.lots && !q.db.lots[o.id].active
          else q.acc == Quantity(p.db, crossing) && Pending(q, o))
  {
    var q := Walk(p, o, all);
    var crossing := Candidates(p.db, o);
    SnapshotReady(p.db, o, all);
    SumIsQuantity(p.db, all);
    assert Ids(all) == crossing;
    if k :| 0 <= k < |all| && all[k].usd >= o.usd {
      EqualRowAlone(all, o.usd, k);
      assert all == [all[0]] && all[0] in all;
      assert crossing == {all[0].id};
      assert p.db.lots[all[0].id].usd == o.usd;
      EqualRowCloses(p, o, all);
    } else {
      SmallerRowsConsumed(p, o, all);
      forall c | c in crossing ensures c in q.db.lots && !q.db.lots[c].active && p.db.lots[c].usd != o.usd {
        var r :| r in all && r.id == c;
        var i :| 0 <= i < |all| && all[i] == r;
        OwnersContain(all, i);
      }
    }
  }

  lemma EqualRowCloses(p: Progress, o: Row, all: seq<Row>)
    requires Good(p.db) && Pending(p, o) && p.acc == 0 && Ready(p.db, o, all)
    requires |all| == 1 && all[0].usd == o.usd > 0
    ensures var q := Walk(p, o, all);
      && o.id in q.db.lots && !q.db.lots[o.id].active
      && all[0].id in q.db.lots && !q.db.lots[all[0].id].active
  {
    var q := SettleRow(p, o, all[0]);
    StepKeeps(p, o, all);
    assert q.db.lots == LotsAfterBoth(p.db.lots, SellerIn(o, all[0]), BuyerIn(o, all[0]));
    assert Walk(p, o, all) == q;
  }

  // ---------------------------------------------------------------- how much changes hands

  // The dollars that change hands in some trades.
  function Traded(o: Row, ts: seq<Trade>): int {
    if ts == [] then 0 else AmountIn(o, ts[0].row) + Traded(o, ts[1..])
  }

  // And the roubles.
  function Cost(o: Row, ts: seq<Trade>): int {
    if ts == [] then 0 else ts[0].row.price * AmountIn(o, ts[0].row) + Cost(o, ts[1..])
  }

  // The last settlement ran in one of the two branches that settle the whole request.
  predicate EndsWhole(o: Row, ts: seq<Trade>) {
    ts != [] && ts[|ts| - 1].row.usd >= o.usd
  }

  // What was accumulated is what was traded, except that a last settlement of the whole request
  // forgets the amount accumulated before it.
  lemma {:induction false} TradedExact(p: Progress, o: Row, rows: seq<Row>)
    ensures var q, ts := Walk(p, o, rows), NewTrades(p, o, rows);
      Traded(o, ts) == q.acc - p.acc
                       + (if EndsWhole(o, ts) then ts[|ts| - 1].before else 0)
    decreases |rows|
  {
    if rows != [] && p.acc != o.usd {
      var q := SettleRow(p, o, rows[0]);
      TradedExact(q, o, rows[1..]);
      var ts, rest := NewTrades(p, o, rows), NewTrades(q, o, rows[1..]);
      assert ts[1..] == rest;
      if rows[0].usd >= o.usd {
        assert q.acc == o.usd && rest == [];
      } else if rest != [] {
        assert ts[|ts| - 1] == rest[|rest| - 1];
      }
    }
  }

  // The incoming user's account moves by exactly the dollars traded, and the roubles they cost.
  lemma {:induction false} AccountMoves(p: Progress, o: Row, rows: seq<Row>)
    requires Good(p.db) && Ready(p.db, o, rows) && (p.acc != o.usd ==> Pending(p, o))
    requires o.user in p.db.accounts
    ensures MovedBy(p.db, Walk(p, o, rows).db, o, Traded(o, NewTrades(p, o, rows)), Cost(o, NewTrades(p, o, rows)))
    decreases |rows|
  {
    if rows != [] && p.acc != o.usd {
      var q := SettleRow(p, o, rows[0]);
      StepKeeps(p, o, rows);
      OwnMove(p.db, o, rows[0], q.db);
      assert NewTrades(p, o, rows)[1..] == NewTrades(q, o, rows[1..]);
      if rows[0].usd >= o.usd {
        assert q.acc == o.usd && NewTrades(q, o, rows[1..]) == [];
      } else {
        AccountMoves(q, o, rows[1..]);
      }
    }
  }

  // From a to b the incoming user's account was credited or debited with these dollars and roubles.
  ghost predicate MovedBy(a: Db, b: Db, o: Row, usd: int, cost: int) {
    && o.user in a.accounts && o.user in b.accounts
    && b.accounts[o.user].usd == a.accounts[o.user].usd + (if o.side == Buy then usd else -usd)
    && b.accounts[o.user].rub == a.accounts[o.user].rub + (if o.side == Buy then -cost else cost)
  }

  lemma OwnMove(db: Db, o: Row, row: Row, r: Db)
    requires RowSettled(db, o, row, r) && o.user in db.accounts && row.user != o.user
    ensures MovedBy(db, r, o, AmountIn(o, row), row.price * AmountIn(o, row))
  {
    var g := Gain(o.user, BuyerIn(o, row), SellerIn(o, row), AmountIn(o, row), row.price * AmountIn(o, row));
    assert r.accounts[o.user].usd == db.accounts[o.user].usd + g.usd;
  }

  // What left or reached the incoming user's account, on the side of the request.
  function Moved(o: Row, before: Db, after: Db): int
    requires o.user in before.accounts && o.user in after.accounts
  {
    if o.side == Buy then after.accounts[o.user].usd - before.accounts[o.user].usd
    else before.accounts[o.user].usd - after.accounts[o.user].usd
  }

  // The dollars that a request for `usd` moves over some rows: the rows taken whole, and the whole
  // request if one more row settles it.
  function MoveOver(usd: int, rows: seq<Row>, k: nat): int
    requires k <= |rows|
  {
    Sum(rows[..k]) + (if TakesWhole(usd, 0, rows, k) then usd else 0)
  }

  lemma {:induction false} TradedOver(p: Progress, o: Row, rows: seq<Row>, k: nat)
    requires StopsAt(o.usd, p.acc, rows, k)
    ensures Traded(o, NewTrades(p, o, rows))
         == Sum(rows[..k]) + (if TakesWhole(o.usd, p.acc, rows, k) then o.usd else 0)
    decreases k
  {
    assert rows[..0] == [];
    var ts := NewTrades(p, o, rows);
    if k > 0 {
      StopsNext(o.usd, p.acc, rows, k);
      SumHead(rows, k);
      var q := SettleRow(p, o, rows[0]);
      TradedOver(q, o, rows[1..], k - 1);
      assert ts[1..] == NewTrades(q, o, rows[1..]);
    } else if rows != [] && p.acc != o.usd {
      var q := SettleRow(p, o, rows[0]);
      assert q.acc == o.usd && ts[1..] == NewTrades(q, o, rows[1..]) == [];
    }
  }

  // A request for `usd` moves at most that: the rows taken whole meet it, or add up to nothing before a
  // row that settles the whole request, or are all there is and do not run past it.
  predicate StaysWithin(usd: int, rows: seq<Row>, k: nat)
    requires k <= |rows|
  {
    var s := Sum(rows[..k]);
    s == usd || (if k < |rows| then s <= 0 else s <= usd)
  }

  lemma WithinIff(usd: int, rows: seq<Row>, k: nat)
    requires StopsAt(usd, 0, rows, k)
    ensures MoveOver(usd, rows, k) <= usd <==> StaysWithin(usd, rows, k)
  {
  }

  // From one state of the tables to another the placement moved exactly what `rows` tell, and so stayed
  // within the request if and only if they say so.
  ghost predicate MovedAsTold(o: Row, before: Db, after: Db, rows: seq<Row>, k: nat) {
    && StopsAt(o.usd, 0, rows, k)
    && o.user in before.accounts && o.user in after.accounts
    && Moved(o, before, after) == MoveOver(o.usd, rows, k)
    && (Moved(o, before, after) <= o.usd <==> StaysWithin(o.usd, rows, k))
  }

  lemma WalkMoves(p: Progress, o: Row, rows: seq<Row>, k: nat)
    requires Good(p.db) && Pending(p, o) && p.acc == 0 && Ready(p.db, o, rows)
    requires StopsAt(o.usd, 0, rows, k)
    ensures MovedAsTold(o, p.db, Walk(p, o, rows).db, rows, k)
  {
    OwnerThere(p.db, o.id);
    AccountMoves(p, o, rows);
    TradedOver(p, o, rows, k);
    WithinIff(o.usd, rows, k);
  }

  // For any amounts the settled batches tell how many dollars a placement moved.
  lemma DollarsMoved(p: Progress, o: Row, limit: nat, batches: seq<seq<Row>>, k: nat)
    requires Good(p.db) && Pending(p, o) && p.acc == 0 && Rounds(p, o, limit, batches)
    requires StopsAt(o.usd, 0, Flatten(batches), k)
    ensures MovedAsTold(o, p.db, Walk(p, o, Flatten(batches)).db, Flatten(batches), k)
  {
    RoundsInOrder(p, o, limit, batches);
    WalkMoves(p, o, Flatten(batches), k);
  }

  // A plan tells it before the placement, whatever the book; and if no two crossing lots have the same
  // price, there is only one plan.
  lemma WithinRequest(p: Progress, o: Row, limit: nat, batches: seq<seq<Row>>)
    requires Good(p.db) && Pending(p, o) && p.acc == 0
    requires Rounds(p, o, limit, batches) && Finished(Walk(p, o, Flatten(batches)), o)
    ensures exists plan, k ::
      Plan(p.db, o, limit, plan) && MovedAsTold(o, p.db, Walk(p, o, Flatten(batches)).db, Flatten(plan), k)
    ensures PricesApart(p.db, Candidates(p.db, o)) ==> forall plan, k ::
      Plan(p.db, o, limit, plan) && StopsAt(o.usd, 0, Flatten(plan), k)
      ==> MovedAsTold(o, p.db, Walk(p, o, Flatten(batches)).db, Flatten(plan), k)
  {
    var k := StopExists(o.usd, 0, Flatten(batches));
    PlacementIsPlan(p, o, limit, batches);
    DollarsMoved(p, o, limit, batches, k);
    if PricesApart(p.db, Candidates(p.db, o)) {
      forall plan, j | Plan(p.db, o, limit, plan) && StopsAt(o.usd, 0, Flatten(plan), j)
        ensures MovedAsTold(o, p.db, Walk(p, o, Flatten(batches)).db, Flatten(plan), j)
      {
        PlanIsUnique(p.db, o, limit, batches, plan);
        StopUnique(o.usd, 0, Flatten(batches), j, k);
      }
    }
  }

  // With one lot per user a sorted listing of all crossing lots tells it too, whatever the batch limit.
  lemma WithinListing(p: Progress, o: Row, limit: nat, batches: seq<seq<Row>>)
    requires Good(p.db) && Pending(p, o) && p.acc == 0 && SingleLots(p.db, o.user)
    requires Rounds(p, o, limit, batches) && Finished(Walk(p, o, Flatten(batches)), o)
    ensures exists all, k ::
      SortedListing(p.db, o, all) && MovedAsTold(o, p.db, Walk(p, o, Flatten(batches)).db, all, k)
    ensures PricesApart(p.db, Candidates(p.db, o)) ==> forall all, k ::
      SortedListing(p.db, o, all) && StopsAt(o.usd, 0, all, k)
      ==> MovedAsTold(o, p.db, Walk(p, o, Flatten(batches)).db, all, k)
  {
    BatchedIsOnePass(p, o, limit, batches);
    var all :| SortedListing(p.db, o, all) && Walk(p, o, all) == Walk(p, o, Flatten(batches));
    var k := StopExists(o.usd, 0, all);
    SnapshotReady(p.db, o, all);
    WalkMoves(p, o, all, k);
    if PricesApart(p.db, Candidates(p.db, o)) {
      forall other, j | SortedListing(p.db, o, other) && StopsAt(o.usd, 0, other, j)
        ensures MovedAsTold(o, p.db, Walk(p, o, Flatten(batches)).db, other, j)
      {
        ListingIsUnique(p.db, o, all, other);
        StopUnique(o.usd, 0, all, j, k);
      }
    }
  }

  // ---------------------------------------------------------------- positive amounts

  ghost predicate AllSmaller(usd: int, rows: seq<Row>) {
    forall i :: 0 <= i < |rows| ==> rows[i].usd < usd
  }

  ghost predicate MetByHead(usd: int, rows: seq<Row>, j: nat) {
    0 < j <= |rows| && AllSmaller(usd, rows[..j]) && Sum(rows[..j]) == usd
  }

  // Nothing crosses, the first row settles the whole request, smaller rows at the head meet it exactly,
  // or all rows together fit into it.
  ghost predicate Fits(usd: int, rows: seq<Row>) {
    || rows == []
    || rows[0].usd >= usd
    || (exists j :: MetByHead(usd, rows, j))
    || (AllSmaller(usd, rows) && Sum(rows) <= usd)
  }

  lemma MeetingStops(usd: int, rows: seq<Row>, j: nat)
    requires Positive(rows) && MetByHead(usd, rows, j)
    ensures StopsAt(usd, 0, rows, j)
  {
    forall i | 0 <= i < j ensures rows[i].usd < usd && Sum(rows[..i]) != usd {
      SumGrows(rows, i, j);
      assert rows[..j][i].usd < usd;
    }
  }

  lemma FitsIff(usd: int, rows: seq<Row>, k: nat)
    requires usd > 0 && Positive(rows) && StopsAt(usd, 0, rows, k)
    ensures StaysWithin(usd, rows, k) <==> Fits(usd, rows)
  {
    assert rows[..0] == [] && rows[..|rows|] == rows;
    if StaysWithin(usd, rows, k) && k > 0 {
      SumGrows(rows, 0, k);
      assert Sum(rows[..k]) == usd ==> MetByHead(usd, rows, k);
    }
    if j :| MetByHead(usd, rows, j) {
      MeetingStops(usd, rows, j);
      StopUnique(usd, 0, rows, j, k);
    }
    if AllSmaller(usd, rows) && Sum(rows) <= usd && k < |rows| {
      SumGrows(rows, k, |rows|);
    }
  }

  // With positive amounts a placement overfills exactly when its plan does not fit.
  lemma PositiveWithinRequest(p: Progress, o: Row, limit: nat, batches: seq<seq<Row>>)
    requires Good(p.db) && Pending(p, o) && p.acc == 0
    requires Rounds(p, o, limit, batches) && Finished(Walk(p, o, Flatten(batches)), o)
    requires o.usd > 0 && forall c :: c in Candidates(p.db, o) ==> p.db.lots[c].usd > 0
    ensures exists plan ::
      Plan(p.db, o, limit, plan) && FitsAsTold(o, p.db, Walk(p, o, Flatten(batches)).db, Flatten(plan))
    ensures PricesApart(p.db, Candidates(p.db, o)) ==> forall plan ::
      Plan(p.db, o, limit, plan) ==> FitsAsTold(o, p.db, Walk(p, o, Flatten(batches)).db, Flatten(plan))
  {
    var after := Walk(p, o, Flatten(batches)).db;
    var k := StopExists(o.usd, 0, Flatten(batches));
    PlacementIsPlan(p, o, limit, batches);
    RoundsInOrder(p, o, limit, batches);
    DollarsMoved(p, o, limit, batches, k);
    CandidatesPositive(p.db, o, Flatten(batches));
    FitsIff(o.usd, Flatten(batches), k);
    assert FitsAsTold(o, p.db, after, Flatten(batches));
    if PricesApart(p.db, Candidates(p.db, o)) {
      forall plan | Plan(p.db, o, limit, plan) ensures FitsAsTold(o, p.db, after, Flatten(plan)) {
        PlanIsUnique(p.db, o, limit, batches, plan);
      }
    }
  }

  // With one lot per user, when the sorted listing does not fit.
  lemma PositiveWithinListing(p: Progress, o: Row, limit: nat, batches: seq<seq<Row>>)
    requires Good(p.db) && Pending(p, o) && p.acc == 0 && SingleLots(p.db, o.user)
    requires Rounds(p, o, limit, batches) && Finished(Walk(p, o, Flatten(batches)), o)
    requires o.usd > 0 && forall c :: c in Candidates(p.db, o) ==> p.db.lots[c].usd > 0
    ensures exists all ::
      SortedListing(p.db, o, all) && FitsAsTold(o, p.db, Walk(p, o, Flatten(batches)).db, all)
    ensures PricesApart(p.db, Candidates(p.db, o)) ==> forall all ::
      SortedListing(p.db, o, all) ==> FitsAsTold(o, p.db, Walk(p, o, Flatten(batches)).db, all)
  {
    WithinListing(p, o, limit, batches);
    var after := Walk(p, o, Flatten(batches)).db;
    var all, k :| SortedListing(p.db, o, all) && MovedAsTold(o, p.db, after, all, k);
    CandidatesPositive(p.db, o, all);
    FitsIff(o.usd, all, k);
    if PricesApart(p.db, Candidates(p.db, o)) {
      forall other | SortedListing(p.db, o, other) ensures FitsAsTold(o, p.db, after, other) {
        ListingIsUnique(p.db, o, all, other);
      }
    }
  }

  ghost predicate FitsAsTold(o: Row, before: Db, after: Db, rows: seq<Row>) {
    && o.user in before.accounts && o.user in after.accounts
    && (Moved(o, before, after) <= o.usd <==> Fits(o.usd, rows))
  }

  lemma CandidatesPositive(db: Db, o: Row, rows: seq<Row>)
    requires InOrder(db, o, rows) && forall c :: c in Candidates(db, o) ==> db.lots[c].usd > 0
    ensures Positive(rows)
  {
    forall i | 0 <= i < |rows| ensures rows[i].usd > 0 {
      assert rows[i].id in Candidates(db, o);
    }
  }

  lemma OffersMove(p: Progress)
    requires p == Progress(OFFERS, 0, [])
    ensures WANTED.user in OFFERS.accounts && WANTED.user in Walk(p, WANTED, [FIVE, TEN]).db.accounts
    ensures Moved(WANTED, OFFERS, Walk(p, WANTED, [FIVE, TEN]).db) == 15
  {
    OffersSound();
    OffersStop();
    SnapshotReady(OFFERS, WANTED, [FIVE, TEN]);
    WalkMoves(p, WANTED, [FIVE, TEN], 1);
  }

  // The failing family is not empty: offers of 5 and 10 dollars, and a request for 10 moves 15.
  lemma OverfillExample(p: Progress, batches: seq<seq<Row>>)
    requires p == Progress(OFFERS, 0, []) && batches == [[FIVE, TEN]]
    ensures Good(p.db) && Pending(p, WANTED) && SingleLots(p.db, WANTED.user)
    ensures Rounds(p, WANTED, 100, batches) && Finished(Walk(p, WANTED, Flatten(batches)), WANTED)
    ensures WANTED.user in p.db.accounts && WANTED.user in Walk(p, WANTED, Flatten(batches)).db.accounts
    ensures Moved(WANTED, p.db, Walk(p, WANTED, Flatten(batches)).db) == 15 > WANTED.usd
  {
    var flat := Flatten(batches);
    assert Good(p.db) && Pending(p, WANTED) && Snapshot(p.db, WANTED, [FIVE, TEN], 100) by {
      OffersSound();
    }
    assert SingleLots(p.db, WANTED.user) by {
      OffersSingle();
    }
    assert flat == [FIVE, TEN] && Rounds(p, WANTED, 100, batches) by {
      OneRound(p, WANTED, 100, [FIVE, TEN]);
    }
    assert Finished(Walk(p, WANTED, flat), WANTED) by {
      OffersFinish(p);
    }
    OffersMove(p);
  }
}
