/**
 Where the server leaves the lot-level reference: updates by owner reach lots that are not part of the
 trade, as soon as somebody has a second lot in the book.
 */
module Undisciplined {
  import opened Tables
  import opened Matching
  import opened Batching
  import opened Exchange
  import opened ReferenceBook
  import opened Stopping
  import opened Planning
  import opened Leftovers

  // The reference touches nothing but the incoming lot and the rows.
  lemma {:induction false} PassKeepsOthers(b: Book, acc: int, o: Row, rows: seq<Row>, c: nat)
    requires c in b.entries && c != o.id && c !in Ids(rows)
    ensures var r := RefPass(b, acc, o, rows); c in r.entries && r.entries[c] == b.entries[c]
    decreases |rows|
  {
    if rows != [] && acc != o.usd {
      assert rows[0] in rows && forall r :: r in rows[1..] ==> r in rows;
      PassKeepsOthers(RefSettle(b, o, rows[0]), if o.usd > rows[0].usd then acc + rows[0].usd else o.usd,
                      o, rows[1..], c);
    }
  }

  // Lot c leaves the book or changes its amount.
  predicate Touched(a: Db, b: Db, c: nat) {
    c in a.lots && a.lots[c].active
    && !(c in b.lots && b.lots[c].active && EntryOf(b.lots[c]) == EntryOf(a.lots[c]))
  }

  // A placement that touches a lot it does not cross is no step of the reference on the same request.
  lemma TouchedIsUnmatched(s: State, e: Event, limit: nat, c: nat)
    requires Inv(s) && e.Place? && e.token in s.users && Enabled(s, e, limit)
    requires Touched(s.db, Next(s, e).db, c)
    requires c !in Candidates(s.db, OrderPlaced(s.db, s.users[e.token], e.side, e.usd, e.price))
    ensures !exists r :: StepMatched(s, e, r)
  {
    assert LotSound(s.db, c);
    forall r | SameRequest(s, e, r) && RefEnabled(BookOf(s.db), r)
      ensures BookOf(Next(s, e).db) != RefNext(BookOf(s.db), r)
    {
      NotInListing(s.db, r, c);
      PassKeepsOthers(RefPlaced(BookOf(s.db), r), 0, RefOrder(BookOf(s.db), r), r.rows, c);
    }
  }

  lemma NotInListing(db: Db, r: RefEvent, c: nat)
    requires r.RefPlace? && RefEnabled(BookOf(db), r) && c in db.lots && db.lots[c].active && c < db.nextLot
    requires c !in Candidates(db, RefOrder(BookOf(db), r))
    ensures c !in Ids(r.rows)
    ensures c in RefPlaced(BookOf(db), r).entries && RefPlaced(BookOf(db), r).entries[c] == EntryOf(db.lots[c])
  {
    forall x | x in r.rows ensures x.id != c {
      var i :| 0 <= i < |r.rows| && r.rows[i] == x;
      assert r.rows[i].id in RefCrossing(RefPlaced(BookOf(db), r), RefOrder(BookOf(db), r));
    }
  }

  // And that is what happens to every other lot of an owner whose row is settled in full.
  lemma {:induction false} OwnerIsClosed(p: Progress, o: Row, rows: seq<Row>, i: nat, c: nat)
    requires Good(p.db) && Ready(p.db, o, rows) && (p.acc != o.usd ==> Pending(p, o))
    requires i < |NewTrades(p, o, rows)| && i < |rows| && rows[i].usd <= o.usd
    requires c in p.db.lots && p.db.lots[c].user == rows[i].user
    ensures var db := Walk(p, o, rows).db; c in db.lots && !db.lots[c].active
    decreases |rows|
  {
    var q := SettleRow(p, o, rows[0]);
    StepKeeps(p, o, rows);
    assert NewTrades(p, o, rows)[1..] == NewTrades(q, o, rows[1..]);
    if rows[0].usd >= o.usd {
      assert NewTrades(q, o, rows[1..]) == [] && Walk(p, o, rows) == q;
    } else if i > 0 {
      OwnerIsClosed(q, o, rows[1..], i - 1, c);
    } else {
      WalkKeeps(q, o, rows[1..]);
    }
  }

  // So with a second lot that does not cross, the placement is no step of the reference.
  lemma SecondLotUnmatched(s: State, e: Event, limit: nat, i: nat, c: nat)
    requires Inv(s) && e.Place? && e.token in s.users && Enabled(s, e, limit)
    requires var u := s.users[e.token];
      var p, o := Start(s.db, u, e.side, e.usd, e.price), OrderPlaced(s.db, u, e.side, e.usd, e.price);
      var rows := Flatten(e.batches);
      && i < |NewTrades(p, o, rows)| && i < |rows| && rows[i].usd <= e.usd
      && c in s.db.lots && s.db.lots[c].active && s.db.lots[c].user == rows[i].user
      && c !in Candidates(s.db, o)
    ensures !exists r :: StepMatched(s, e, r)
  {
    var u := s.users[e.token];
    var p, o := Start(s.db, u, e.side, e.usd, e.price), OrderPlaced(s.db, u, e.side, e.usd, e.price);
    StartIsSound(s.db, u, e.side, e.usd, e.price);
    RoundsInOrder(p, o, limit, e.batches);
    OwnerIsClosed(p, o, Flatten(e.batches), i, c);
    TouchedIsUnmatched(s, e, limit, c);
  }

  // Another lot of the incoming user loses what the placement takes, or is closed with it.
  lemma OwnLotAfter(p: Progress, o: Row, rows: seq<Row>, k: nat, c: nat)
    requires Good(p.db) && Pending(p, o) && p.acc == 0 && Ready(p.db, o, rows) && StopsAt(o.usd, 0, rows, k)
    requires c in p.db.lots && p.db.lots[c].user == o.user
    ensures var db := Walk(p, o, rows).db;
      && c in db.lots
      && (if TakesWhole(o.usd, 0, rows, k) then !db.lots[c].active
          else db.lots[c].usd == p.db.lots[c].usd - Sum(rows[..k]))
  {
    if TakesWhole(o.usd, 0, rows, k) {
      StopTrades(p, o, rows, k);
      LastTrade(p, o, rows, k);
    } else if Sum(rows[..k]) == o.usd {
      MetBySum(p, o, rows, k);
    } else {
      StopAccumulates(p, o, rows, k);
      SweepExact(p, o, rows, Walk(p, o, rows));
    }
  }

  // So with a second lot of the incoming user, a placement that moves anything is no step of it either.
  lemma OwnLotUnmatched(s: State, e: Event, limit: nat, k: nat, c: nat)
    requires Inv(s) && e.Place? && e.token in s.users && Enabled(s, e, limit)
    requires c in s.db.lots && s.db.lots[c].active && s.db.lots[c].user == s.users[e.token]
    requires var rows := Flatten(e.batches);
      StopsAt(e.usd, 0, rows, k) && (TakesWhole(e.usd, 0, rows, k) || Sum(rows[..k]) != 0)
    ensures !exists r :: StepMatched(s, e, r)
  {
    var u := s.users[e.token];
    var p, o := Start(s.db, u, e.side, e.usd, e.price), OrderPlaced(s.db, u, e.side, e.usd, e.price);
    StartIsSound(s.db, u, e.side, e.usd, e.price);
    RoundsInOrder(p, o, limit, e.batches);
    OwnLotAfter(p, o, Flatten(e.batches), k, c);
    TouchedIsUnmatched(s, e, limit, c);
  }

  // ---------------------------------------------------------------- an instance

  // One seller offers 5 dollars at 7 and 6 at 8; a request for 5 at 7 closes both lots.
  const TWO_LOTS := Db(
    map[1 := Account("a", "", 0, 0), 2 := Account("b", "", 0, 0)], 3,
    map[1 := Lot(2, Sell, 5, 7, true), 2 := Lot(2, Sell, 6, 8, true)], 3,
    [])
  const BUYER_LOGGED_IN := State(TWO_LOTS, map["t" := 1], map[], map[], {}, {})
  const OFFER := Row(1, 2, Sell, 5, 7)
  const BUY_FIVE := Place("t", Buy, 5, 7, [[OFFER]])

  lemma TwoLotsSound()
    ensures Inv(BUYER_LOGGED_IN)
  {
    assert forall u: nat :: UserIdUsed(TWO_LOTS, u);
    assert forall u: nat, v: nat :: NamesApart(TWO_LOTS, u, v);
    assert forall i: nat :: LotSound(TWO_LOTS, i);
    assert forall k: nat :: DealSound(TWO_LOTS, k);
    assert forall j: nat, k: nat :: DealsApart(TWO_LOTS, j, k);
    assert forall a: nat, b: nat :: PairSettled(BUYER_LOGGED_IN, a, b);
  }

  lemma OfferRead(db: Db, o: Row)
    requires db == LotPlaced(TWO_LOTS, 1, Buy, 5, 7) && o == OrderPlaced(TWO_LOTS, 1, Buy, 5, 7)
    ensures Snapshot(db, o, [OFFER], 100) && 2 !in Candidates(TWO_LOTS, o)
  {
    assert Candidates(db, o) == {1};
    assert OFFER in [OFFER];
  }

  lemma OfferTrade(p: Progress, o: Row)
    requires p.acc == 0 && o.usd == 5
    ensures |NewTrades(p, o, [OFFER])| == 1 && Walk(p, o, [OFFER]).acc == 5
  {
    var q := SettleRow(p, o, OFFER);
    assert [OFFER][1..] == [] && Walk(q, o, []) == q && NewTrades(q, o, []) == [];
  }

  lemma UnmatchedExample(s: State, e: Event)
    requires s == BUYER_LOGGED_IN && e == BUY_FIVE
    ensures Inv(s) && Enabled(s, e, 100)
    ensures !exists r :: StepMatched(s, e, r)
  {
    var p, o := Start(s.db, 1, Buy, 5, 7), OrderPlaced(s.db, 1, Buy, 5, 7);
    assert Inv(s) by {
      TwoLotsSound();
    }
    OfferRead(p.db, o);
    OneRound(p, o, 100, [OFFER]);
    OfferTrade(p, o);
    SecondLotUnmatched(s, e, 100, 0, 2);
  }
}
