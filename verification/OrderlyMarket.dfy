/**
 Orderly runs: users place a lot only while holding none in the book, and ask for no negative amount.
 In such a run a lot is in the history exactly when it is out of the book, and no two lots that still
 hold dollars cross each other.
 */
module OrderlyMarket {
  import opened Tables
  import opened Matching
  import opened Batching
  import opened Exchange
  import opened ReferenceBook

  ghost predicate ClosedRecorded(db: Db, i: nat) {
    i in db.lots && !db.lots[i].active ==> Recorded(db, i)
  }

  // `met` are lots whose request was met by a sum of smaller ones.
  ghost predicate MetEmpty(db: Db, met: set<nat>) {
    forall i :: i in met ==> i < db.nextLot && (i in db.lots && db.lots[i].active ==> db.lots[i].usd == 0)
  }

  ghost predicate Orderly(db: Db, met: set<nat>) {
    && OneLotEach(db)
    && (forall i :: ClosedRecorded(db, i))
    && MetEmpty(db, met)
  }

  // ---------------------------------------------------------------- one settlement

  lemma SettlementRecords(p: Progress, o: Row, row: Row, r: Db, i: nat)
    requires OneLotEach(p.db) && Pending(p, o) && Fresh(p.db, o, row) && p.db.lots[row.id].active
    requires RowSettled(p.db, o, row, r) && ClosedRecorded(p.db, i)
    ensures ClosedRecorded(r, i)
  {
    var ds := NewDeals(o, row);
    RecordedExtended(p.db, r, ds, i);
    if i in r.lots && !r.lots[i].active && p.db.lots[i].active {
      assert i == o.id || i == row.id;
      assert i == ds[0].lot || i == ds[|ds| - 1].lot;
    }
  }

  lemma SettlementLeavesMet(p: Progress, o: Row, row: Row, r: Db, met: set<nat>)
    requires OneLotEach(p.db) && Pending(p, o) && Fresh(p.db, o, row) && p.db.lots[row.id].active
    requires RowSettled(p.db, o, row, r) && MetEmpty(p.db, met) && o.id !in met && o.usd >= 0
    ensures MetEmpty(r, met)
  {
    forall i | i in met && i in r.lots && r.lots[i].active ensures r.lots[i].usd == 0 {
      assert p.db.lots[i].active && p.db.lots[i].usd == 0;
      assert p.db.lots[i].user == o.user ==> i == o.id;
      assert p.db.lots[i].user == row.user ==> i == row.id;
    }
  }

  // ---------------------------------------------------------------- one placement

  lemma OrderlyStep(p: Progress, o: Row, rows: seq<Row>, met: set<nat>) returns (q: Progress)
    requires Good(p.db) && Orderly(p.db, met) && o.id !in met && o.usd >= 0
    requires rows != [] && Ready(p.db, o, rows) && p.acc != o.usd && Pending(p, o) && InBook(p.db, rows)
    ensures Walk(p, o, rows) == Walk(q, o, rows[1..])
    ensures Orderly(q.db, met)
    ensures if o.usd > rows[0].usd
            then Good(q.db) && Pending(q, o) && InBook(q.db, rows[1..]) && Ready(q.db, o, rows[1..])
            else q.acc == o.usd && o.id in q.db.lots && !q.db.lots[o.id].active
    ensures q.db.nextLot == p.db.nextLot
  {
    q := SettleRow(p, o, rows[0]);
    StepKeeps(p, o, rows);
    SettleRefines(p, o, rows[0], q.db);
    forall i: nat ensures ClosedRecorded(q.db, i) {
      assert ClosedRecorded(p.db, i);
      SettlementRecords(p, o, rows[0], q.db, i);
    }
    SettlementLeavesMet(p, o, rows[0], q.db, met);
    if o.usd > rows[0].usd {
      StillInBook(p.db, o, rows, q.db);
    }
  }

  // Wherever the pass stops, the market is orderly; if it stopped because the request was met, the lot
  // holds nothing or is out of the book.
  lemma {:induction false} OrderlyPass(p: Progress, o: Row, rows: seq<Row>, met: set<nat>)
    requires Good(p.db) && Orderly(p.db, met) && o.id !in met && o.usd >= 0 && o.id < p.db.nextLot
    requires Ready(p.db, o, rows) && Pending(p, o) && InBook(p.db, rows)
    ensures var q := Walk(p, o, rows); Orderly(q.db, if q.acc == o.usd then met + {o.id} else met)
    decreases |rows|
  {
    if rows != [] && p.acc != o.usd {
      var q := OrderlyStep(p, o, rows, met);
      if o.usd > rows[0].usd {
        OrderlyPass(q, o, rows[1..], met);
      }
    }
  }

  lemma OrderlyStart(s: State, u: nat, side: Side, usd: int, price: int)
    requires Good(s.db) && Orderly(s.db, s.met) && u in s.db.accounts && HoldsNone(s.db, u)
    ensures var p, o := Start(s.db, u, side, usd, price), OrderPlaced(s.db, u, side, usd, price);
      Orderly(p.db, s.met) && o.id !in s.met
  {
    var p := Start(s.db, u, side, usd, price);
    StartRefines(s.db, u, side, usd, price, RefPlace(u, side, usd, price, [], true));
    assert LotSound(s.db, s.db.nextLot);
    forall i: nat ensures ClosedRecorded(p.db, i) {
      assert ClosedRecorded(s.db, i);
      if Recorded(s.db, i) {
        var k :| 0 <= k < |s.db.deals| && s.db.deals[k].lot == i;
        assert p.db.deals[k].lot == i;
      }
    }
  }

  lemma OrderlyPlacement(s: State, u: nat, side: Side, usd: int, price: int, limit: nat,
                         batches: seq<seq<Row>>, rows: seq<Row>)
    requires Good(s.db) && Orderly(s.db, s.met) && u in s.db.accounts && HoldsNone(s.db, u) && usd >= 0
    requires Rounds(Start(s.db, u, side, usd, price), OrderPlaced(s.db, u, side, usd, price), limit, batches)
    requires rows <= Flatten(batches)
    ensures var q := Walk(Start(s.db, u, side, usd, price), OrderPlaced(s.db, u, side, usd, price), rows);
      Orderly(q.db, if q.acc == usd then s.met + {s.db.nextLot} else s.met)
  {
    var p, o := Start(s.db, u, side, usd, price), OrderPlaced(s.db, u, side, usd, price);
    StartIsSound(s.db, u, side, usd, price);
    OrderlyStart(s, u, side, usd, price);
    RoundsInOrder(p, o, limit, batches);
    ReadyPrefix(p.db, o, Flatten(batches), rows);
    forall i | 0 <= i < |rows|
      ensures rows[i].id in p.db.lots && p.db.lots[rows[i].id].active && p.db.lots[rows[i].id].user == rows[i].user
    {
      assert rows[i] == Flatten(batches)[i];
      assert rows[i].id in Candidates(p.db, o);
    }
    OrderlyPass(p, o, rows, s.met);
  }

  // ---------------------------------------------------------------- runs

  ghost predicate OrderlyEvent(s: State, e: Event) {
    Disciplined(s, e) && (e.Place? || e.CrashInPlace? ==> e.usd >= 0)
  }

  ghost predicate OrderlyRun(s: State, es: seq<Event>) {
    forall k :: 0 <= k < |es| ==> OrderlyEvent(After(s, es[..k]), es[k])
  }

  lemma OrderlyFewerLots(db: Db, r: Db, met: set<nat>)
    requires Orderly(db, met) && r.deals == db.deals && r.nextLot == db.nextLot
    requires forall i :: i in r.lots ==> i in db.lots && r.lots[i] == db.lots[i]
    ensures Orderly(r, met)
  {
    forall i: nat ensures ClosedRecorded(r, i) {
      assert ClosedRecorded(db, i);
      if Recorded(db, i) {
        var k :| 0 <= k < |db.deals| && db.deals[k].lot == i;
        assert r.deals[k].lot == i;
      }
    }
  }

  lemma StepOrderly(s: State, e: Event, limit: nat)
    requires Inv(s) && Orderly(s.db, s.met) && Enabled(s, e, limit) && OrderlyEvent(s, e)
    ensures Orderly(Next(s, e).db, Next(s, e).met)
  {
    var t := Next(s, e);
    match e
    case Place(token, side, usd, price, batches) =>
      if token in s.users {
        OrderlyPlacement(s, s.users[token], side, usd, price, limit, batches, Flatten(batches));
      }
    case CrashInPlace(token, side, usd, price, batches, settled) =>
      OrderlyPlacement(s, s.users[token], side, usd, price, limit, batches, Flatten(batches)[..settled]);
      assert MetEmpty(t.db, s.met);
    case _ =>
      OrderlyFewerLots(s.db, t.db, s.met);
  }

  lemma OrderlyInit(s: State, es: seq<Event>)
    requires es != [] && OrderlyRun(s, es)
    ensures OrderlyRun(s, es[..|es| - 1]) && OrderlyEvent(After(s, es[..|es| - 1]), es[|es| - 1])
  {
    var n := |es| - 1;
    assert forall k :: 0 <= k < n ==> es[..n][k] == es[k] && es[..n][..k] == es[..k];
  }

  lemma {:induction false} RunOrderly(s: State, es: seq<Event>, limit: nat)
    requires Inv(s) && Orderly(s.db, s.met) && ValidRun(s, es, limit) && OrderlyRun(s, es)
    ensures Orderly(After(s, es).db, After(s, es).met)
    decreases |es|
  {
    if es != [] {
      var n := |es| - 1;
      OrderlyInit(s, es);
      RunOrderly(s, es[..n], limit);
      RunKeepsInv(s, es[..n], limit);
      StepOrderly(After(s, es[..n]), es[n], limit);
    }
  }

  ghost predicate RecordedIffClosed(db: Db, i: nat) {
    i in db.lots ==> (Recorded(db, i) <==> !db.lots[i].active)
  }

  // The later of two crossing lots is an empty remainder, or was cut off by a crash.
  predicate CrossesEmpty(s: State, a: nat, b: nat) {
    (a in s.db.lots && b in s.db.lots && a < b && s.db.lots[a].active && s.db.lots[b].active
     && CrossPair(s.db.lots[a], s.db.lots[b]))
    ==> s.db.lots[b].usd == 0 || b in s.cut
  }

  // After an orderly run from empty tables: recorded means closed and closed means recorded; and no two
  // lots that hold dollars cross, unless a crash cut the later one off.
  lemma OrderlyBook(es: seq<Event>, limit: nat)
    requires ValidRun(INITIAL, es, limit) && OrderlyRun(INITIAL, es)
    ensures forall i :: RecordedIffClosed(After(INITIAL, es).db, i)
    ensures forall a, b :: CrossesEmpty(After(INITIAL, es), a, b)
  {
    InitialInv();
    assert Orderly(EMPTY, {}) by {
      assert forall i: nat :: ClosedRecorded(EMPTY, i);
    }
    RunOrderly(INITIAL, es, limit);
    RunKeepsInv(INITIAL, es, limit);
    var s := After(INITIAL, es);
    forall i: nat ensures RecordedIffClosed(s.db, i) {
      assert ClosedRecorded(s.db, i);
      if i in s.db.lots && s.db.lots[i].active {
        ActiveUnrecorded(s.db, i);
      }
    }
    forall a: nat, b: nat ensures CrossesEmpty(s, a, b) {
      assert PairSettled(s, a, b);
    }
  }
}
