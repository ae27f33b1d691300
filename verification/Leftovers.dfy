/**
 A request met exactly by smaller lots leaves the loop before the query is repeated, so a crossing lot
 may stay in the book beside the empty remainder of the request.
 */
module Leftovers {
  import opened Tables
  import opened Matching
  import opened Batching
  import opened Exchange
  import opened Runs
  import opened Stopping
  import opened Planning

  // The last trade of a walk, after rows that were all taken whole.
  lemma LastTrade(p: Progress, o: Row, rows: seq<Row>, j: nat)
    requires Good(p.db) && Pending(p, o) && Ready(p.db, o, rows) && |NewTrades(p, o, rows)| == j + 1
    ensures j < |rows|
    ensures var m, q := Walk(p, o, rows[..j]), Walk(p, o, rows);
      && q == SettleRow(m, o, rows[j]) && Pending(m, o) && Fresh(m.db, o, rows[j])
      && RowSettled(m.db, o, rows[j], q.db)
      && AllSwept(p.db, m.db, o.user, m.acc - p.acc, Owners(rows[..j]))
  {
    RestStaysTrue(p, o, rows, j);
    ReadyPrefix(p.db, o, rows, rows[..j]);
    SweepExact(p, o, rows[..j], Walk(p, o, rows[..j]));
    LastIsLast(p, o, rows, j);
    RowSettles(Walk(p, o, rows[..j]), o, rows[j]);
  }

  lemma RowSettles(p: Progress, o: Row, row: Row)
    requires Good(p.db) && Pending(p, o) && Fresh(p.db, o, row)
    ensures RowSettled(p.db, o, row, SettleRow(p, o, row).db)
  {
    SettleEffect(p.db, o, row);
  }

  lemma LastIsLast(p: Progress, o: Row, rows: seq<Row>, j: nat)
    requires |NewTrades(p, o, rows)| == j + 1 && j < |rows| && Walk(p, o, rows[..j]).acc != o.usd
    ensures Walk(p, o, rows) == SettleRow(Walk(p, o, rows[..j]), o, rows[j])
  {
    var head := rows[..j + 1];
    assert head == rows[..j] + [rows[j]] && rows == head + rows[j + 1..];
    WalkSnoc(p, o, rows[..j], rows[j]);
    WalkConcat(p, o, head, rows[j + 1..]);
    if Walk(p, o, head).acc != o.usd {
      WalkTrades(p, o, rows);
      WalkTrades(p, o, head);
      WalkTrades(Walk(p, o, head), o, rows[j + 1..]);
      assert NewTrades(Walk(p, o, head), o, rows[j + 1..]) == [];
    }
  }

  lemma OwnersSnoc(rows: seq<Row>, j: nat)
    requires j < |rows|
    ensures Owners(rows[..j + 1]) == Owners(rows[..j]) + {rows[j].user}
  {
    var a, b := rows[..j], rows[..j + 1];
    assert forall i :: 0 <= i < j ==> b[i] == a[i];
    forall u ensures u in Owners(b) <==> u in Owners(a) || u == rows[j].user {
      OwnersAre(a, u);
      OwnersAre(b, u);
      assert b[j].user == rows[j].user;
    }
  }

  // The rows that meet the request are taken, and the rows behind them are not touched.
  lemma MetBySum(p: Progress, o: Row, rows: seq<Row>, k: nat)
    requires Good(p.db) && Pending(p, o) && Ready(p.db, o, rows)
    requires StopsAt(o.usd, p.acc, rows, k) && p.acc + Sum(rows[..k]) == o.usd
    ensures var q := Walk(p, o, rows);
      q.acc == o.usd && Pending(q, o) && AllSwept(p.db, q.db, o.user, o.usd - p.acc, Owners(rows[..k]))
  {
    StopAccumulates(p, o, rows, k);
    if k == 0 {
      NothingTaken(p, o, rows);
    } else {
      StopTrades(p, o, rows, k);
      AllTakenWhole(p, o, rows, k - 1);
    }
  }

  lemma AllTakenWhole(p: Progress, o: Row, rows: seq<Row>, j: nat)
    requires Good(p.db) && Pending(p, o) && Ready(p.db, o, rows)
    requires |NewTrades(p, o, rows)| == j + 1 && j < |rows| && rows[j].usd < o.usd
    ensures var q := Walk(p, o, rows);
      Pending(q, o) && AllSwept(p.db, q.db, o.user, q.acc - p.acc, Owners(rows[..j + 1]))
  {
    LastTrade(p, o, rows, j);
    LastTaken(p, o, rows, j, Walk(p, o, rows[..j]), Walk(p, o, rows));
  }

  lemma NothingTaken(p: Progress, o: Row, rows: seq<Row>)
    requires p.acc == o.usd
    ensures Walk(p, o, rows) == p && AllSwept(p.db, p.db, o.user, 0, Owners(rows[..0]))
  {
    assert rows[..0] == [];
  }

  lemma LastTaken(p: Progress, o: Row, rows: seq<Row>, j: nat, m: Progress, q: Progress)
    requires j < |rows| && rows[j].usd < o.usd && Pending(m, o) && Fresh(m.db, o, rows[j])
    requires q == SettleRow(m, o, rows[j]) && RowSettled(m.db, o, rows[j], q.db)
    requires AllSwept(p.db, m.db, o.user, m.acc - p.acc, Owners(rows[..j]))
    ensures Pending(q, o) && AllSwept(p.db, q.db, o.user, q.acc - p.acc, Owners(rows[..j + 1]))
  {
    OneSwept(m.db, o, rows[j], q.db);
    SettledKeepsPending(m, o, rows[j], q.db);
    OwnersSnoc(rows, j);
    SweptTwice(p.db, m.db, q.db, o.user, m.acc - p.acc, rows[j].usd, q.acc - p.acc,
               Owners(rows[..j]), {rows[j].user}, Owners(rows[..j + 1]));
  }

  // A settlement of the whole request closes the incoming lot.
  lemma WholeCloses(p: Progress, o: Row, rows: seq<Row>, k: nat)
    requires Good(p.db) && Pending(p, o) && Ready(p.db, o, rows)
    requires StopsAt(o.usd, p.acc, rows, k) && TakesWhole(o.usd, p.acc, rows, k)
    ensures var db := Walk(p, o, rows).db; o.id in db.lots && !db.lots[o.id].active
  {
    StopTrades(p, o, rows, k);
    LastTrade(p, o, rows, k);
    SettledCloses(Walk(p, o, rows[..k]).db, o, rows[k], Walk(p, o, rows).db);
  }

  // The incoming lot is in the book and crosses another lot there.
  ghost predicate Crossed(db: Db, o: Row) {
    && o.id in db.lots && db.lots[o.id].active
    && exists c :: c in db.lots && db.lots[c].active && CrossPair(db.lots[c], db.lots[o.id])
  }

  lemma CrossedIfCandidates(db: Db, o: Row)
    requires o.id in db.lots && db.lots[o.id].active
    requires db.lots[o.id].user == o.user && db.lots[o.id].side == o.side && db.lots[o.id].price == o.price
    ensures Crossed(db, o) <==> Candidates(db, o) != {}
  {
    if c :| c in Candidates(db, o) {
      assert CrossPair(db.lots[c], db.lots[o.id]);
    }
    if Crossed(db, o) {
      var c :| c in db.lots && db.lots[c].active && CrossPair(db.lots[c], db.lots[o.id]);
      assert c in Candidates(db, o);
    }
  }

  // The rows taken whole meet the request, and another owner has a crossing lot.
  ghost predicate MetTooEarly(db: Db, o: Row, rows: seq<Row>, k: nat) {
    k <= |rows| && Sum(rows[..k]) == o.usd && Left(db, o, Owners(rows[..k])) != {}
  }

  lemma MetCrosses(p: Progress, o: Row, rows: seq<Row>, k: nat)
    requires Good(p.db) && Pending(p, o) && p.acc == 0 && Ready(p.db, o, rows)
    requires StopsAt(o.usd, 0, rows, k) && Sum(rows[..k]) == o.usd
    ensures Crossed(Walk(p, o, rows).db, o) <==> Left(p.db, o, Owners(rows[..k])) != {}
  {
    var q := Walk(p, o, rows);
    MetBySum(p, o, rows, k);
    SweptCandidates(p.db, q.db, o, o.usd, rows[..k]);
    assert Candidates(q.db, o) == Left(p.db, o, Owners(rows[..k]));
    CrossedIfCandidates(q.db, o);
  }

  lemma WalkCrosses(p: Progress, o: Row, rows: seq<Row>, k: nat)
    requires Good(p.db) && Pending(p, o) && p.acc == 0 && Ready(p.db, o, rows)
    requires StopsAt(o.usd, 0, rows, k) && Finished(Walk(p, o, rows), o)
    ensures Crossed(Walk(p, o, rows).db, o) <==> MetTooEarly(p.db, o, rows, k)
  {
    StopAccumulates(p, o, rows, k);
    if Sum(rows[..k]) == o.usd {
      MetCrosses(p, o, rows, k);
    } else if TakesWhole(o.usd, 0, rows, k) {
      WholeCloses(p, o, rows, k);
    } else {
      WalkKeeps(p, o, rows);
      CrossedIfCandidates(Walk(p, o, rows).db, o);
    }
  }

  // For any amounts and any book: after a whole placement the incoming lot crosses another lot of the
  // book if and only if the rows taken whole met the request and another owner had a crossing lot.  Plans
  // are told by the tables before the placement.
  lemma CrossedIff(p: Progress, o: Row, limit: nat, plan: seq<seq<Row>>, k: nat)
    requires Good(p.db) && Pending(p, o) && p.acc == 0
    requires Plan(p.db, o, limit, plan) && StopsAt(o.usd, 0, Flatten(plan), k)
    ensures Crossed(Walk(p, o, Flatten(plan)).db, o) <==> MetTooEarly(p.db, o, Flatten(plan), k)
  {
    PlacementIsPlan(p, o, limit, plan);
    RoundsInOrder(p, o, limit, plan);
    WalkCrosses(p, o, Flatten(plan), k);
  }

  // So it is for a placement in a run.
  lemma PlaceCrossedIff(s: State, e: Event, limit: nat, k: nat)
    requires Inv(s) && e.Place? && e.token in s.users && Enabled(s, e, limit)
    requires StopsAt(e.usd, 0, Flatten(e.batches), k)
    ensures var u := s.users[e.token];
      var p, o := Start(s.db, u, e.side, e.usd, e.price), OrderPlaced(s.db, u, e.side, e.usd, e.price);
      && Plan(p.db, o, limit, e.batches)
      && (Crossed(Next(s, e).db, o) <==> MetTooEarly(p.db, o, Flatten(e.batches), k))
  {
    var u := s.users[e.token];
    var p, o := Start(s.db, u, e.side, e.usd, e.price), OrderPlaced(s.db, u, e.side, e.usd, e.price);
    StartIsSound(s.db, u, e.side, e.usd, e.price);
    PlacementIsPlan(p, o, limit, e.batches);
    CrossedIff(p, o, limit, e.batches, k);
  }

  // ---------------------------------------------------------------- in every run

  // Event e, in state t, placed lot b, and a crash cut it off, or its rows met the request too early.
  ghost predicate LeftCrossed(t: State, e: Event, b: nat) {
    && b == t.db.nextLot
    && (e.Place? || e.CrashInPlace?) && e.token in t.users
    && (e.Place? ==>
          var u := t.users[e.token];
          var p, o := Start(t.db, u, e.side, e.usd, e.price), OrderPlaced(t.db, u, e.side, e.usd, e.price);
          exists k: nat :: StopsAt(e.usd, 0, Flatten(e.batches), k) && MetTooEarly(p.db, o, Flatten(e.batches), k))
  }

  // Only a placement adds a lot, and adds one.
  lemma NewLots(t: State, e: Event, limit: nat)
    requires Inv(t) && Enabled(t, e, limit) && Next(t, e).db.nextLot != t.db.nextLot
    ensures (e.Place? || e.CrashInPlace?) && e.token in t.users
    ensures Next(t, e).db.nextLot == t.db.nextLot + 1
  {
    if (e.Place? || e.CrashInPlace?) && e.token in t.users {
      var u := t.users[e.token];
      var p, o := Start(t.db, u, e.side, e.usd, e.price), OrderPlaced(t.db, u, e.side, e.usd, e.price);
      StartIsSound(t.db, u, e.side, e.usd, e.price);
      RoundsInOrder(p, o, limit, e.batches);
      ReadyPrefix(p.db, o, Flatten(e.batches), Offered(e));
      WalkKeeps(p, o, Offered(e));
    }
  }

  lemma NewLotCrossed(t: State, e: Event, limit: nat, a: nat)
    requires Inv(t) && Enabled(t, e, limit) && (e.Place? || e.CrashInPlace?) && e.token in t.users
    requires CrossingPair(Next(t, e).db, a, t.db.nextLot)
    ensures LeftCrossed(t, e, t.db.nextLot)
  {
    if e.Place? {
      var o := OrderPlaced(t.db, t.users[e.token], e.side, e.usd, e.price);
      var k := StopExists(e.usd, 0, Flatten(e.batches));
      assert Crossed(Next(t, e).db, o);
      PlaceCrossedIff(t, e, limit, k);
    }
  }

  // Two lots in the book that cross, the second one placed later.
  predicate CrossingPair(db: Db, a: nat, b: nat) {
    && a in db.lots && b in db.lots && a < b && db.lots[a].active && db.lots[b].active
    && CrossPair(db.lots[a], db.lots[b])
  }

  lemma CrossedBefore(x: Db, y: Db, a: nat, b: nat)
    requires Later(x, y) && CrossingPair(y, a, b) && b < x.nextLot
    ensures CrossingPair(x, a, b)
  {
  }

  // In every state of every run, whenever two lots of the book cross, the later one was left there by a
  // placement that a crash cut off, or whose rows, as its plan told, met the request too early.
  lemma {:induction false} EveryCrossingTold(s: State, es: seq<Event>, limit: nat, a: nat, b: nat)
    requires Inv(s) && ValidRun(s, es, limit)
    requires CrossingPair(After(s, es).db, a, b) && b >= s.db.nextLot
    ensures exists k :: 0 <= k < |es| && LeftCrossed(After(s, es[..k]), es[k], b)
    decreases |es|
  {
    RunKeepsInv(s, es, limit);
    OwnerThere(After(s, es).db, b);
    if es != [] {
      var n := |es| - 1;
      var t := After(s, es[..n]);
      RunKeepsInv(s, es[..n], limit);
      StepCrossing(t, es[n], limit, a, b);
      if b < t.db.nextLot {
        EveryCrossingTold(s, es[..n], limit, a, b);
        var k :| 0 <= k < n && LeftCrossed(After(s, es[..n][..k]), es[..n][k], b);
        assert es[..n][..k] == es[..k];
      }
    }
  }

  lemma StepCrossing(t: State, e: Event, limit: nat, a: nat, b: nat)
    requires Inv(t) && Enabled(t, e, limit) && Inv(Next(t, e)) && CrossingPair(Next(t, e).db, a, b)
    ensures if b < t.db.nextLot then CrossingPair(t.db, a, b) else LeftCrossed(t, e, b)
  {
    OwnerThere(Next(t, e).db, b);
    if b < t.db.nextLot {
      StepIsLater(t, e, limit);
      CrossedBefore(t.db, Next(t, e).db, a, b);
    } else {
      NewLots(t, e, limit);
      NewLotCrossed(t, e, limit, a);
    }
  }

  // ---------------------------------------------------------------- one lot per user

  // Then the lots left are the rows behind.
  lemma LeftBehind(db: Db, o: Row, all: seq<Row>, k: nat)
    requires SingleLots(db, o.user) && SortedListing(db, o, all) && k <= |all|
    ensures Left(db, o, Owners(all[..k])) != {} <==> k < |all|
  {
    var head := all[..k];
    assert InOrder(db, o, head);
    forall c | c in Candidates(db, o) ensures c in Left(db, o, Owners(head)) <==> c !in Ids(head) {
      OwnerMeansRow(db, o, head, c);
    }
    if k < |all| {
      assert all[k].id in Left(db, o, Owners(head));
    } else {
      assert head == all;
    }
  }

  predicate MeetsBefore(usd: int, rows: seq<Row>, k: nat) {
    k < |rows| && Sum(rows[..k]) == usd
  }

  // A sorted listing of all crossing lots tells it, whatever the batch limit: the incoming lot crosses if
  // and only if the rows taken whole meet the request and are not all.
  lemma ListingCrossedIff(p: Progress, o: Row, limit: nat, batches: seq<seq<Row>>)
    requires Good(p.db) && Pending(p, o) && p.acc == 0 && SingleLots(p.db, o.user)
    requires Rounds(p, o, limit, batches) && Finished(Walk(p, o, Flatten(batches)), o)
    ensures exists all: seq<Row>, k: nat ::
      && SortedListing(p.db, o, all) && StopsAt(o.usd, 0, all, k)
      && (Crossed(Walk(p, o, Flatten(batches)).db, o) <==> MeetsBefore(o.usd, all, k))
    ensures PricesApart(p.db, Candidates(p.db, o)) ==> forall all: seq<Row>, k: nat ::
      SortedListing(p.db, o, all) && StopsAt(o.usd, 0, all, k)
      ==> (Crossed(Walk(p, o, Flatten(batches)).db, o) <==> MeetsBefore(o.usd, all, k))
  {
    BatchedIsOnePass(p, o, limit, batches);
    var all :| SortedListing(p.db, o, all) && Walk(p, o, all) == Walk(p, o, Flatten(batches));
    var k := StopExists(o.usd, 0, all);
    SnapshotReady(p.db, o, all);
    WalkCrosses(p, o, all, k);
    LeftBehind(p.db, o, all, k);
    if PricesApart(p.db, Candidates(p.db, o)) {
      forall other: seq<Row>, j: nat | SortedListing(p.db, o, other) && StopsAt(o.usd, 0, other, j)
        ensures Crossed(Walk(p, o, Flatten(batches)).db, o) <==> MeetsBefore(o.usd, other, j)
      {
        ListingIsUnique(p.db, o, all, other);
        StopUnique(o.usd, 0, all, j, k);
      }
    }
  }

  // ---------------------------------------------------------------- what such a lot looks like

  // Whatever crossing lot of another owner was in the book still crosses the empty remainder.
  lemma RemainderCrossed(p: Progress, o: Row, rows: seq<Row>, k: nat, c: nat)
    requires Good(p.db) && Pending(p, o) && p.acc == 0 && Ready(p.db, o, rows)
    requires StopsAt(o.usd, 0, rows, k) && Sum(rows[..k]) == o.usd
    requires c in Left(p.db, o, Owners(rows[..k]))
    ensures var db := Walk(p, o, rows).db;
      && c in db.lots && o.id in db.lots
      && db.lots[c] == p.db.lots[c] && db.lots[c].active
      && db.lots[o.id].active && db.lots[o.id].usd == 0
      && CrossPair(db.lots[c], db.lots[o.id])
  {
    MetBySum(p, o, rows, k);
  }

  // Offers of 4, 6 and 5 dollars at one price, and a request for 10.
  const THREE_OFFERS := Db(
    map[1 := Account("a", "", 0, 0), 2 := Account("b", "", 0, 0), 3 := Account("c", "", 0, 0),
        4 := Account("d", "", 0, 0)], 5,
    map[1 := Lot(2, Sell, 4, 7, true), 2 := Lot(3, Sell, 6, 7, true), 3 := Lot(4, Sell, 5, 7, true)], 4,
    [])
  const ONE_LOGGED_IN := State(THREE_OFFERS, map["t" := 1], map[], map[], {}, {})
  const ROWS := [Row(1, 2, Sell, 4, 7), Row(2, 3, Sell, 6, 7)]
  const LAST := Row(3, 4, Sell, 5, 7)
  const REQUEST := Place("t", Buy, 10, 7, [ROWS + [LAST]])

  lemma ThreeOffersSound()
    ensures Inv(ONE_LOGGED_IN)
  {
    assert forall u: nat :: UserIdUsed(THREE_OFFERS, u);
    assert forall u: nat, v: nat :: NamesApart(THREE_OFFERS, u, v);
    assert forall i: nat :: LotSound(THREE_OFFERS, i);
    assert forall k: nat :: DealSound(THREE_OFFERS, k);
    assert forall j: nat, k: nat :: DealsApart(THREE_OFFERS, j, k);
    assert forall a: nat, b: nat :: PairSettled(ONE_LOGGED_IN, a, b);
  }

  lemma ThreeOffersRead(db: Db, o: Row)
    requires db == LotPlaced(THREE_OFFERS, 1, Buy, 10, 7) && o == OrderPlaced(THREE_OFFERS, 1, Buy, 10, 7)
    ensures Snapshot(db, o, ROWS + [LAST], 100) && 3 in Candidates(db, o) && db.lots[3].user == 4
  {
    var rows := ROWS + [LAST];
    assert Candidates(db, o) == {1, 2, 3};
    assert rows[0] in rows && rows[1] in rows && rows[2] in rows;
  }

  lemma ThreeOffersStop(rows: seq<Row>)
    requires rows == ROWS + [LAST]
    ensures StopsAt(10, 0, rows, 2) && Sum(rows[..2]) == 10 && 4 !in Owners(rows[..2])
  {
    assert rows[..0] == [] && rows[..1] == [ROWS[0]] && rows[..2] == ROWS;
    assert ROWS[1..] == [ROWS[1]] && ROWS[1..][1..] == [] && [ROWS[0]][1..] == [];
  }

  // One step from a sound state to a book in which two lots of different owners cross.
  lemma CrossedBookExample(s: State, e: Event)
    requires s == ONE_LOGGED_IN && e == REQUEST
    ensures Inv(s) && Enabled(s, e, 100)
    ensures var db := Next(s, e).db;
      && 3 in db.lots && 4 in db.lots && db.lots[3].active && db.lots[4].active
      && CrossPair(db.lots[3], db.lots[4]) && db.lots[3].usd == 5 && db.lots[4].usd == 0
      && 4 in Next(s, e).met
  {
    var p, o := Start(s.db, 1, Buy, 10, 7), OrderPlaced(s.db, 1, Buy, 10, 7);
    var rows := ROWS + [LAST];
    assert Inv(s) by {
      ThreeOffersSound();
    }
    StartIsSound(s.db, 1, Buy, 10, 7);
    ThreeOffersRead(p.db, o);
    ThreeOffersStop(rows);
    SnapshotReady(p.db, o, rows);
    OneRound(p, o, 100, rows);
    MetBySum(p, o, rows, 2);
    RemainderCrossed(p, o, rows, 2, 3);
  }
}
